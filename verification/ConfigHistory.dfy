/**
  What the history of operations and passes stands for: whatever is noted in it goes back to an
  earlier step of the run, and where no such step was taken, the marks on receipts are true
  without exception.
 */
module ConfigHistory {
  import opened Prelude
  import opened ConfigPolicy
  import opened ConfigProtocol
  import opened ConfigSafety
  import opened ConfigRecovery
  import opened ConfigDaemon

  datatype Kind = Edited | Renamed | Remanaged

  function PassNoted(m: Rec, kind: Kind): set<Path> {
    match kind
    case Edited => m.edited
    case Renamed => m.renamed
    case Remanaged => m.remanaged
  }

  function ThreadNoted(t: Thread, kind: Kind): set<Path> {
    match kind
    case Edited => t.edited
    case Renamed => {}
    case Remanaged => t.remanaged
  }

  /** The effect of a step, and the operation it is for. */
  function EffectOf(s: State, a: Action): (OpId, Effect) {
    if (a.Advance? || a.Throw?) && a.op in s.apply && s.apply[a.op].planId in s.specs then (a.op, ThreadStep(s, a).0)
    else if (a.RecAdvance? || a.RecThrow?) && RecRunning(s, a.pass) then (s.passes[a.pass].todo[0], RecStep(s, a).0)
    else ("", Nothing)
  }

  /** An operation in progress writes this file. */
  predicate OperationWrites(s: State, a: Action, p: Path) {
    && (a.Advance? || a.Throw?) && a.op in s.apply
    && EffectOf(s, a).1.WriteFile? && EffectOf(s, a).1.path == p
  }

  predicate ManagesTarget(s: State, a: Action, p: Path) {
    EffectOf(s, a).1.PutManaged? && EffectOf(s, a).1.path == p
  }

  /** The step from `s` is one that pass `k` notes. */
  ghost predicate PassSees(s: State, a: Action, k: PassId, kind: Kind, p: Path) {
    match kind
    case Edited => a.Edit? && a.path == p
    case Renamed => OperationWrites(s, a, p)
    case Remanaged => ManagesTarget(s, a, p) && !(ByReconcile(a) && a.pass == k)
  }

  /** The step from `s` is one that operation `op` notes. */
  ghost predicate ThreadSees(s: State, a: Action, op: OpId, kind: Kind, p: Path) {
    match kind
    case Edited => a.Edit? && a.path == p
    case Renamed => false
    case Remanaged => ManagesTarget(s, a, p) && !((a.Advance? || a.Throw?) && a.op == op)
  }

  /** The step is one of a pass that writes the receipt of `op`, or moves the plan it runs. */
  ghost predicate Meddles(s: State, a: Action, op: OpId) {
    && ByReconcile(a) && op in s.apply
    && var (o, e) := EffectOf(s, a);
       || (e.PutReceipt? && o == op)
       || ((e.Transition? || e.CompletePlan?) && e.planId == s.apply[op].planId)
  }

  // ---------------------------------------------------------------- one step

  lemma PassNotesWhat(m: Rec, op: OpId, e: Effect, kind: Kind, p: Path)
    requires p in PassNoted(PassNotes(m, op, e), kind) && p !in PassNoted(m, kind)
    ensures (kind.Renamed? && e.WriteFile? && e.path == p) || (kind.Remanaged? && e.PutManaged? && e.path == p)
  {
  }

  lemma ThreadNotesWhat(x: OpId, t: Thread, op: OpId, e: Effect, kind: Kind, p: Path)
    ensures p in ThreadNoted(ThreadNotes(x, t, op, e), kind) && p !in ThreadNoted(t, kind) ==>
              kind.Remanaged? && e.PutManaged? && e.path == p
    ensures ThreadNotes(x, t, op, e).meddled && !t.meddled ==>
              (e.PutReceipt? && x == op) || ((e.Transition? || e.CompletePlan?) && e.planId == t.planId)
  {
  }

  /** What a pass does itself takes notes away, and adds none. */
  lemma OwnPassNotes(w: World, m: Rec, a: Action, kind: Kind)
    requires ByReconcile(a) && m.todo != [] && m.todo[0] in m.copies
    ensures var r := (if a.RecAdvance? then AdvanceRec(w, m, a.pick) else ThrowRec(m, a.effect)).1;
            r.Some? ==> PassNoted(r.value, kind) <= PassNoted(m, kind)
  {
    hide Decide, Observed, Look, Perform;
  }

  lemma OwnThreadNotes(w: World, spec: Spec, t: Thread, a: Action, kind: Kind)
    requires a.Advance? || a.Throw?
    ensures var r := (if a.Advance? then AdvanceThread(w, spec, a.op, t, a.pick) else ThrowThread(spec, t, a.effect)).1;
            r.Some? ==> ThreadNoted(r.value, kind) <= ThreadNoted(t, kind) && r.value.meddled == t.meddled
                        && r.value.planId == t.planId
  {
    hide Look, PreconditionsHold, Perform;
  }

  /** The passes' part of a step, without the operations' part. */
  lemma PassesAfterThread(s: State, a: Action, k: PassId)
    requires Next(s, a).Some? && (a.Advance? || a.Throw?) && k in Next(s, a).value.passes
    ensures k in s.passes
    ensures Next(s, a).value.passes[k] == PassNotes(s.passes[k], EffectOf(s, a).0, EffectOf(s, a).1)
  {
    hide AdvanceThread, ThrowThread, PassNotes, ThreadsNote, Perform;
    ThreadAction(s, a);
  }

  lemma PassesAfterRec(s: State, a: Action, k: PassId)
    requires Inv(s) && Next(s, a).Some? && ByReconcile(a) && k in Next(s, a).value.passes && k != a.pass
    ensures k in s.passes
    ensures Next(s, a).value.passes[k] == PassNotes(s.passes[k], EffectOf(s, a).0, EffectOf(s, a).1)
  {
    hide AdvanceRec, ThrowRec, PassNotes, ThreadsNote, Perform;
    RecAction(s, a);
    hide Inv, PassInv, HeadInv, HeadOk, Next;
  }

  lemma ThreadsAfterThread(s: State, a: Action, x: OpId)
    requires Next(s, a).Some? && (a.Advance? || a.Throw?) && x in Next(s, a).value.apply && x != a.op
    ensures x in s.apply
    ensures Next(s, a).value.apply[x] == ThreadNotes(x, s.apply[x], EffectOf(s, a).0, EffectOf(s, a).1)
  {
    hide AdvanceThread, ThrowThread, PassesNote, ThreadNotes, Perform;
    ThreadAction(s, a);
  }

  lemma ThreadsAfterRec(s: State, a: Action, x: OpId)
    requires Inv(s) && Next(s, a).Some? && ByReconcile(a) && x in Next(s, a).value.apply
    ensures x in s.apply
    ensures Next(s, a).value.apply[x] == ThreadNotes(x, s.apply[x], EffectOf(s, a).0, EffectOf(s, a).1)
  {
    hide AdvanceRec, ThrowRec, PassesNote, ThreadNotes, Perform;
    RecAction(s, a);
    hide Inv, PassInv, HeadInv, HeadOk, Next;
  }

  /** The remaining steps: an edit is noted by everybody, a beginning notes nothing. */
  lemma QuietPassNotes(s: State, a: Action, k: PassId, kind: Kind)
    requires Next(s, a).Some? && !a.Advance? && !a.Throw? && !ByReconcile(a) && k in Next(s, a).value.passes
    ensures k !in s.passes ==> PassNoted(Next(s, a).value.passes[k], kind) == {}
    ensures k in s.passes ==>
              PassNoted(Next(s, a).value.passes[k], kind)
              == PassNoted(s.passes[k], kind) + (if kind.Edited? && a.Edit? then {a.path} else {})
  {
    hide WfSpec, ListsPending, TargetsFree, SetFile, Perform, ThreadsEdited, FirstThread;
  }

  lemma QuietThreadNotes(s: State, a: Action, x: OpId, kind: Kind)
    requires Next(s, a).Some? && !a.Advance? && !a.Throw? && !ByReconcile(a) && x in Next(s, a).value.apply
    ensures var t' := Next(s, a).value.apply[x];
            if x in s.apply then
              ThreadNoted(t', kind) == ThreadNoted(s.apply[x], kind) + (if kind.Edited? && a.Edit? then {a.path} else {})
              && t'.meddled == s.apply[x].meddled
            else ThreadNoted(t', kind) == {} && !t'.meddled
  {
    hide WfSpec, ListsPending, TargetsFree, SetFile, Perform, PassesEdited, FirstPass;
  }

  lemma PassStepNotes(s: State, a: Action, k: PassId, kind: Kind, p: Path)
    requires Inv(s) && Next(s, a).Some? && k in Next(s, a).value.passes
    requires p in PassNoted(Next(s, a).value.passes[k], kind) && (k in s.passes ==> p !in PassNoted(s.passes[k], kind))
    ensures k in s.passes && PassSees(s, a, k, kind, p)
  {
    hide Inv, Next, AdvanceThread, ThrowThread, AdvanceRec, ThrowRec, PassNotes, PassNoted, Perform;
    if a.Advance? || a.Throw? {
      PassesAfterThread(s, a, k);
      PassNotesWhat(s.passes[k], EffectOf(s, a).0, EffectOf(s, a).1, kind, p);
      ThreadMaps(s, a);
    } else if ByReconcile(a) {
      RecMaps(s, a);
      if k == a.pass {
        OwnPassNotes(s.w, s.passes[k], a, kind);
      } else {
        PassesAfterRec(s, a, k);
        PassNotesWhat(s.passes[k], EffectOf(s, a).0, EffectOf(s, a).1, kind, p);
        PassWritesNoFile(s, a);
      }
    } else {
      QuietPassNotes(s, a, k, kind);
    }
  }

  lemma PassWritesNoFile(s: State, a: Action)
    requires Inv(s) && Next(s, a).Some? && ByReconcile(a)
    ensures !EffectOf(s, a).1.WriteFile?
  {
    hide AdvanceRec, ThrowRec, Next;
    RecAction(s, a);
    hide Inv, PassInv, HeadInv, HeadOk;
    NoFileWritten(s.w, s.passes[a.pass], a);
  }

  lemma NoFileWritten(w: World, m: Rec, a: Action)
    requires ByReconcile(a) && m.todo != [] && m.todo[0] in m.copies
    ensures !(if a.RecAdvance? then AdvanceRec(w, m, a.pick) else ThrowRec(m, a.effect)).0.WriteFile?
  {
    hide Decide, Observed, Look;
  }

  /** A foreign step that an operation notes for one of its own targets, or its own plan, is a pass's. */
  lemma ThreadStepNotes(s: State, a: Action, op: OpId, kind: Kind, p: Path)
    requires Inv(s) && Next(s, a).Some? && op in Next(s, a).value.apply
    requires p in ThreadNoted(Next(s, a).value.apply[op], kind) && (op in s.apply ==> p !in ThreadNoted(s.apply[op], kind))
    ensures op in s.apply && ThreadSees(s, a, op, kind, p)
    ensures s.apply[op].planId in s.specs
    ensures kind.Remanaged? && p in s.specs[s.apply[op].planId].targets ==> ByReconcile(a)
  {
    hide Inv, Next, AdvanceThread, ThrowThread, AdvanceRec, ThrowRec, ThreadNotes, ThreadNoted, Perform, WfSpec;
    if a.Advance? || a.Throw? {
      ThreadMaps(s, a);
      if op == a.op {
        OwnThreadNotes(s.w, s.specs[s.apply[op].planId], s.apply[op], a, kind);
        assert false;
      } else {
        ThreadsAfterThread(s, a, op);
        ThreadNotesWhat(op, s.apply[op], EffectOf(s, a).0, EffectOf(s, a).1, kind, p);
        OthersTargets(s, a, op);
      }
    } else if ByReconcile(a) {
      ThreadsAfterRec(s, a, op);
      ThreadNotesWhat(op, s.apply[op], EffectOf(s, a).0, EffectOf(s, a).1, kind, p);
    } else {
      QuietThreadNotes(s, a, op, kind);
    }
    SpecOf(s, op);
  }

  lemma SpecOf(s: State, op: OpId)
    requires Inv(s) && op in s.apply
    ensures s.apply[op].planId in s.specs
  {
    KnownThread(s, op);
  }

  /** The effects of another operation stay within its own plan and targets, which are not this one's. */
  lemma OthersTargets(s: State, a: Action, op: OpId)
    requires Inv(s) && Next(s, a).Some? && (a.Advance? || a.Throw?) && op in s.apply && op != a.op
    ensures s.apply[op].planId in s.specs
    ensures var e := EffectOf(s, a).1;
            && (e.PutManaged? ==> e.path !in s.specs[s.apply[op].planId].targets)
            && (e.Transition? || e.CompletePlan? ==> e.planId != s.apply[op].planId)
  {
    hide Next, AdvanceThread, ThrowThread, Perform, Within;
    ThreadAction(s, a);
    ThreadEffectWithin(s, a);
    KnownThread(s, op);
    SomeTarget(s, a.op);
    PlansApart(s.specs, s.apply, a.op, op);
    hide Inv, ThreadInv, WfSpec, ThreadStep;
    var t, o := s.apply[a.op], s.apply[op];
    EffectApart(EffectOf(s, a).1, t.planId, Elements(s.specs[t.planId].targets), o.planId, s.specs[o.planId].targets);
  }

  lemma EffectApart(e: Effect, planId: PlanId, ps: set<Path>, other: PlanId, targets: seq<Path>)
    requires Within(e, planId, ps) && other != planId && Elements(targets) !! ps
    ensures e.PutManaged? ==> e.path !in targets
    ensures e.Transition? || e.CompletePlan? ==> e.planId != other
  {
    assert forall p :: p in targets ==> p in Elements(targets);
  }

  lemma StepMeddles(s: State, a: Action, op: OpId)
    requires Inv(s) && Next(s, a).Some? && op in Next(s, a).value.apply && Next(s, a).value.apply[op].meddled
    requires op in s.apply ==> !s.apply[op].meddled
    ensures Meddles(s, a, op)
  {
    hide Inv, Next, AdvanceThread, ThrowThread, AdvanceRec, ThrowRec, ThreadNotes, Perform, WfSpec;
    if a.Advance? || a.Throw? {
      ThreadMaps(s, a);
      if op == a.op {
        OwnThreadNotes(s.w, s.specs[s.apply[op].planId], s.apply[op], a, Edited);
      } else {
        ThreadsAfterThread(s, a, op);
        ThreadNotesWhat(op, s.apply[op], EffectOf(s, a).0, EffectOf(s, a).1, Edited, "");
        OthersTargets(s, a, op);
      }
      assert false;
    } else if ByReconcile(a) {
      ThreadsAfterRec(s, a, op);
      ThreadNotesWhat(op, s.apply[op], EffectOf(s, a).0, EffectOf(s, a).1, Edited, "");
    } else {
      QuietThreadNotes(s, a, op, Edited);
      assert false;
    }
  }

  // ---------------------------------------------------------------- since when

  /**
    What a pass has noted since state `b`: a step after it did that, while the pass was on. With
    `b` before the pass began, this accounts for everything the pass has noted.
   */
  lemma {:induction false} PassNotedSince(run: seq<State>, acts: seq<Action>, b: nat, i: nat, k: PassId, kind: Kind, p: Path)
    requires IsRun(run, acts) && b <= i < |run| && k in run[i].passes && p in PassNoted(run[i].passes[k], kind)
    requires k in run[b].passes ==> p !in PassNoted(run[b].passes[k], kind)
    ensures exists j :: b <= j < i && k in run[j].passes && PassSees(run[j], acts[j], k, kind, p)
    decreases i
  {
    hide Next, Inv, PassSees, PassNoted;
    StepOf(run, acts, i - 1);
    if k in run[i - 1].passes && p in PassNoted(run[i - 1].passes[k], kind) {
      PassNotedSince(run, acts, b, i - 1, k, kind, p);
    } else {
      PassStepNotes(run[i - 1], acts[i - 1], k, kind, p);
    }
  }

  /** Step `j` is one that `op` noted, while it ran this plan; on the plan's targets it is an edit or a pass's. */
  ghost predicate ThreadSeesAt(run: seq<State>, acts: seq<Action>, j: nat, op: OpId, kind: Kind, p: Path, planId: PlanId, spec: Spec)
    requires |run| == |acts| + 1 && j < |acts|
  {
    && op in run[j].apply && run[j].apply[op].planId == planId && planId in run[j].specs && run[j].specs[planId] == spec
    && ThreadSees(run[j], acts[j], op, kind, p)
    && (kind.Remanaged? && p in spec.targets ==> ByReconcile(acts[j]))
  }

  lemma PlanStays(s: State, a: Action, op: OpId)
    requires Inv(s) && Next(s, a).Some? && op in s.apply && op in Next(s, a).value.apply
    ensures s.apply[op].planId in s.specs
    ensures var s', q := Next(s, a).value, s.apply[op].planId;
            s'.apply[op].planId == q && q in s'.specs && s'.specs[q] == s.specs[q]
  {
    SpecOf(s, op);
    hide Inv, Next, AdvanceThread, ThrowThread, AdvanceRec, ThrowRec, Perform, PlanIs;
    if a.Advance? || a.Throw? {
      ThreadMaps(s, a);
      SamePlanNext(s.w, s.specs[s.apply[a.op].planId], s.apply[a.op], a);
    } else if ByReconcile(a) {
      RecMaps(s, a);
    } else {
      QuietPlanStays(s, a, op);
    }
  }

  lemma QuietPlanStays(s: State, a: Action, op: OpId)
    requires Next(s, a).Some? && !a.Advance? && !a.Throw? && !ByReconcile(a)
    requires op in s.apply && op in Next(s, a).value.apply && s.apply[op].planId in s.specs
    ensures var s', q := Next(s, a).value, s.apply[op].planId;
            s'.apply[op].planId == q && q in s'.specs && s'.specs[q] == s.specs[q]
  {
    QuietMaps(s, a);
    Beginnings(s, a);
    PlansAgeQuiet(s, a);
    hide Next;
  }

  lemma SamePlanNext(w: World, spec: Spec, t: Thread, a: Action)
    requires a.Advance? || a.Throw?
    ensures var r := (if a.Advance? then AdvanceThread(w, spec, a.op, t, a.pick) else ThrowThread(spec, t, a.effect)).1;
            r.Some? ==> r.value.planId == t.planId
  {
    OwnThreadNotes(w, spec, t, a, Edited);
  }

  /** The same for an operation. */
  lemma {:induction false} ThreadNotedSince(run: seq<State>, acts: seq<Action>, b: nat, i: nat, op: OpId, kind: Kind, p: Path)
    requires IsRun(run, acts) && b <= i < |run| && op in run[i].apply && p in ThreadNoted(run[i].apply[op], kind)
    requires op in run[b].apply ==> p !in ThreadNoted(run[b].apply[op], kind)
    ensures run[i].apply[op].planId in run[i].specs
    ensures var q := run[i].apply[op].planId;
            exists j :: b <= j < i && ThreadSeesAt(run, acts, j, op, kind, p, q, run[i].specs[q])
    decreases i
  {
    hide Next, Inv, ThreadSees, ThreadNoted;
    StepOf(run, acts, i - 1);
    if op in run[i - 1].apply && p in ThreadNoted(run[i - 1].apply[op], kind) {
      ThreadNotedSince(run, acts, b, i - 1, op, kind, p);
      PlanStays(run[i - 1], acts[i - 1], op);
    } else {
      ThreadStepNotes(run[i - 1], acts[i - 1], op, kind, p);
      PlanStays(run[i - 1], acts[i - 1], op);
      var q := run[i].apply[op].planId;
      assert ThreadSeesAt(run, acts, i - 1, op, kind, p, q, run[i].specs[q]);
    }
  }

  /** A receipt or plan is meddled with by a pass only, while the operation is in progress. */
  lemma {:induction false} MeddledMeansPass(run: seq<State>, acts: seq<Action>, i: nat, op: OpId)
    requires IsRun(run, acts) && i < |run| && op in run[i].apply && run[i].apply[op].meddled
    ensures exists j :: 0 <= j < i && Meddles(run[j], acts[j], op)
  {
    hide Next, Inv, Meddles;
    if i == 0 {
      assert false;
    } else {
      StepOf(run, acts, i - 1);
      if op in run[i - 1].apply && run[i - 1].apply[op].meddled {
        MeddledMeansPass(run, acts, i - 1, op);
      } else {
        StepMeddles(run[i - 1], acts[i - 1], op);
      }
    }
  }

  // ---------------------------------------------------------------- marks without exception

  /** From `b` to `i` no operation was in progress and nobody edited a file. */
  ghost predicate NobodyBetween(run: seq<State>, acts: seq<Action>, b: nat, i: nat)
    requires |run| == |acts| + 1 && b <= i <= |acts|
  {
    forall j :: b <= j < i ==> run[j].apply == map[] && !acts[j].Edit?
  }

  /**
    A failed mark is true when no operation was in progress, and no file edited, since the pass began;
    or since any later state in which it had noted neither, such as when it came to this receipt.
   */
  lemma FailedMarkTrueBesideNobody(run: seq<State>, acts: seq<Action>, b: nat, i: nat, op: OpId)
    requires IsRun(run, acts) && b <= i < |acts| && ByReconcile(acts[i]) && Marks(run, acts, i, op, Failed)
    requires acts[i].pass in run[b].passes ==>
               run[b].passes[acts[i].pass].edited == {} && run[b].passes[acts[i].pass].renamed == {}
    requires NobodyBetween(run, acts, b, i)
    ensures var s := run[i + 1];
            var r := s.w.receipts[op];
            r.planId in s.specs && TargetsAt(s.w.files, s.specs[r.planId].targets, s.specs[r.planId].pre, {})
  {
    ReconcileFailedMeansUnchanged(run, acts, i, op);
    var k := acts[i].pass;
    var m := run[i].passes[k];
    hide Next, Init, StepAt;
    forall p ensures p !in m.edited + m.renamed {
      if p in m.edited {
        PassNotedSince(run, acts, b, i, k, Edited, p);
      } else if p in m.renamed {
        PassNotedSince(run, acts, b, i, k, Renamed, p);
      }
    }
    assert m.edited + m.renamed == {};
  }

  /**
    A completed mark of `applyPlan` is true without exception when, since the operation began, no file
    was edited and no pass was on.
   */
  lemma CompletedMarkTrueAlone(run: seq<State>, acts: seq<Action>, b: nat, i: nat, op: OpId)
    requires IsRun(run, acts) && b <= i < |acts| && !ByReconcile(acts[i]) && Marks(run, acts, i, op, Completed)
    requires op !in run[b].apply && forall j :: b <= j < i ==> run[j].passes == map[] && !acts[j].Edit?
    ensures op in run[i].apply
    ensures var s, t := run[i + 1], run[i].apply[op];
            && t.planId in s.specs
            && ManagedBy(s.w, Elements(s.specs[t.planId].targets), op, s.specs[t.planId].intended)
            && TargetsAt(s.w.files, s.specs[t.planId].targets, s.specs[t.planId].intended, {})
  {
    ApplyCompletedMeansIntended(run, acts, i, op);
    var t := run[i].apply[op];
    ThreadMarks(run, acts, i, op, Completed);
    hide Next, Init, StepAt, Inv, ThreadInv, AdvanceThread, ThrowThread;
    var targets := run[i].specs[t.planId].targets;
    forall p | p in targets ensures p !in t.edited && p !in t.remanaged {
      if p in t.edited {
        ThreadNotedSince(run, acts, b, i, op, Edited, p);
      } else if p in t.remanaged {
        ThreadNotedSince(run, acts, b, i, op, Remanaged, p);
        var j :| b <= j < i && ThreadSeesAt(run, acts, j, op, Remanaged, p, t.planId, run[i].specs[t.planId]);
        PassInProgress(run, acts, j);
      }
    }
    assert Elements(targets) - t.remanaged == Elements(targets);
  }

  lemma PassInProgress(run: seq<State>, acts: seq<Action>, j: nat)
    requires IsRun(run, acts) && j < |acts| && ByReconcile(acts[j])
    ensures acts[j].pass in run[j].passes
  {
    StepOf(run, acts, j);
    hide Inv;
  }
}
