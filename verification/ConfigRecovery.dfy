/**
  What receipts mean, over every run of the configuration machine: crashes between any two
  durable steps, steps that fail with or without their effect, outside edits at any time, and
  operations and passes in any number beside each other.
 */
module ConfigRecovery {
  import opened Prelude
  import opened ConfigPolicy
  import opened ConfigProtocol
  import opened ConfigSafety

  /** Step `i` of the run gives operation `op` a receipt in state `st`. */
  ghost predicate Marks(run: seq<State>, acts: seq<Action>, i: nat, op: OpId, st: ReceiptState)
    requires |run| == |acts| + 1 && i < |acts|
  {
    && op in run[i + 1].w.receipts && run[i + 1].w.receipts[op].state == st
    && !(op in run[i].w.receipts && run[i].w.receipts[op].state == st)
  }

  ghost predicate ByReconcile(a: Action) {
    a.RecAdvance? || a.RecThrow?
  }

  /** Every target outside `changed` has the hash in `hashes`. */
  ghost predicate TargetsAt(files: map<Path, string>, targets: seq<Path>, hashes: HashMap, changed: set<Path>) {
    forall p :: p in targets && p !in changed ==> Observed(files, p) == Look(hashes, p)
  }

  // ---------------------------------------------------------------- which step did it

  lemma StepOf(run: seq<State>, acts: seq<Action>, i: nat)
    requires IsRun(run, acts) && i < |acts|
    ensures Inv(run[i]) && Inv(run[i + 1]) && Next(run[i], acts[i]) == Some(run[i + 1])
  {
    hide Next, Inv, Init;
    assert StepAt(run, acts, i);
    RunInv(run, acts, i);
    RunInv(run, acts, i + 1);
  }

  /** The thread step an Advance or Throw action takes. */
  function ThreadStep(s: State, a: Action): (Effect, Option<Thread>)
    requires (a.Advance? || a.Throw?) && a.op in s.apply && s.apply[a.op].planId in s.specs
  {
    var t := s.apply[a.op];
    var spec := s.specs[t.planId];
    if a.Advance? then AdvanceThread(s.w, spec, a.op, t, a.pick) else ThrowThread(spec, t, a.effect)
  }

  function RecStep(s: State, a: Action): (Effect, Option<Rec>)
    requires ByReconcile(a) && RecRunning(s, a.pass)
  {
    if a.RecAdvance? then AdvanceRec(s.w, s.passes[a.pass], a.pick) else ThrowRec(s.passes[a.pass], a.effect)
  }

  /** Only an operation or a pass touches receipts, operation records, owners or managed targets. */
  lemma QuietAction(s: State, a: Action)
    requires Next(s, a).Some? && !a.Advance? && !a.Throw? && !ByReconcile(a)
    ensures var w' := Next(s, a).value.w;
            && w'.receipts == s.w.receipts && w'.ops == s.w.ops && w'.owner == s.w.owner && w'.managed == s.w.managed
            && (!a.Edit? ==> w'.files == s.w.files)
  {
    hide ThreadsEdited, PassesEdited, FirstPass, FirstThread, ListsPending, TargetsFree, WfSpec;
  }

  lemma ThreadAction(s: State, a: Action)
    requires Next(s, a).Some? && (a.Advance? || a.Throw?)
    ensures a.op in s.apply && s.apply[a.op].planId in s.specs
    ensures Next(s, a).value == WithThread(s, a.op, ThreadStep(s, a))
  {
    hide AdvanceThread, ThrowThread, WithThread;
  }

  lemma RecAction(s: State, a: Action)
    requires Inv(s) && Next(s, a).Some? && ByReconcile(a)
    ensures RecRunning(s, a.pass) && HeadOk(s.specs, s.passes[a.pass]) && HeadInv(s.w, s.passes[a.pass])
    ensures PassInv(s.w, s.specs, s.passes[a.pass])
    ensures var m := s.passes[a.pass];
            m.todo[0] in m.todo && Next(s, a).value == WithRec(s, a.pass, m.todo[0], RecStep(s, a))
            && m.copies[m.todo[0]].planId in s.specs
            && m.copies[m.todo[0]].targets == s.specs[m.copies[m.todo[0]].planId].targets
  {
    hide PlansInv, ReceiptsInv, ThreadsInv, PassesInv, AdvanceRec, ThrowRec, HeadInv, WithRec;
    HeadKnown(s, a.pass);
  }

  /** Receipts change only by a PutReceipt of the operation itself. */
  lemma OnlyPutReceipt(w: World, op: OpId, e: Effect, other: OpId)
    ensures var w' := Perform(w, op, e);
            if e.PutReceipt? && other == op then other in w'.receipts && w'.receipts[other] == e.receipt
            else (other in w'.receipts <==> other in w.receipts) &&
                 (other in w.receipts ==> w'.receipts[other] == w.receipts[other])
  {
  }

  /** A foreign effect leaves an operation where it is. */
  ghost predicate SameThread(t: Thread, t': Thread) {
    t' == t.(edited := t'.edited, meddled := t'.meddled, remanaged := t'.remanaged)
  }

  /** A foreign effect leaves a pass where it is; only the receipt of `op` can be lost to it. */
  ghost predicate SamePass(m: Rec, m': Rec, op: Option<OpId>) {
    && m' == m.(edited := m'.edited, renamed := m'.renamed, remanaged := m'.remanaged, lost := m'.lost)
    && m.lost <= m'.lost <= m.lost + (if op == None then {} else {op.value})
  }

  lemma Noted(x: OpId, t: Thread, m: Rec, op: OpId, e: Effect)
    ensures SameThread(t, ThreadNotes(x, t, op, e)) && SamePass(m, PassNotes(m, op, e), Some(op))
  {
  }

  /** Where everybody is after a step of operation `a.op`. */
  lemma ThreadMaps(s: State, a: Action)
    requires Next(s, a).Some? && (a.Advance? || a.Throw?)
    ensures a.op in s.apply && s.apply[a.op].planId in s.specs
    ensures var s', r := Next(s, a).value, ThreadStep(s, a);
            && s'.w == Perform(s.w, a.op, r.0) && s'.specs == s.specs
            && (a.op in s'.apply <==> r.1.Some?) && (r.1.Some? ==> s'.apply[a.op] == r.1.value)
            && (forall x :: x != a.op ==> (x in s'.apply <==> x in s.apply))
            && (forall x :: x in s.apply && x != a.op ==> SameThread(s.apply[x], s'.apply[x]))
            && s'.passes.Keys == s.passes.Keys
            && (forall k :: k in s.passes ==> SamePass(s.passes[k], s'.passes[k], Some(a.op)))
  {
    ThreadAction(s, a);
    hide Next, AdvanceThread, ThrowThread, ThreadStep, ThreadNotes, PassNotes, Perform, SameThread, SamePass;
    var s', r := Next(s, a).value, ThreadStep(s, a);
    forall x | x in s.apply && x != a.op ensures x in s'.apply && SameThread(s.apply[x], s'.apply[x]) {
      Noted(x, s.apply[x], FirstPass([], map[]), a.op, r.0);
    }
    forall k | k in s.passes ensures SamePass(s.passes[k], s'.passes[k], Some(a.op)) {
      Noted(a.op, s.apply[a.op], s.passes[k], a.op, r.0);
    }
  }

  /** Where everybody is after a step of pass `a.pass`. */
  lemma RecMaps(s: State, a: Action)
    requires Inv(s) && Next(s, a).Some? && ByReconcile(a)
    ensures RecRunning(s, a.pass)
    ensures var s', r, op := Next(s, a).value, RecStep(s, a), s.passes[a.pass].todo[0];
            && s'.w == Perform(s.w, op, r.0) && s'.specs == s.specs
            && (a.pass in s'.passes <==> r.1.Some?) && (r.1.Some? ==> s'.passes[a.pass] == r.1.value)
            && (forall k :: k != a.pass ==> (k in s'.passes <==> k in s.passes))
            && (forall k :: k in s.passes && k != a.pass ==> SamePass(s.passes[k], s'.passes[k], Some(op)))
            && s'.apply.Keys == s.apply.Keys
            && (forall x :: x in s.apply ==> SameThread(s.apply[x], s'.apply[x]))
  {
    hide AdvanceRec, ThrowRec, Next;
    RecAction(s, a);
    hide Inv, PassInv, HeadInv, HeadOk, RecStep, SameThread, SamePass, WithRec;
    WithRecMaps(s, a.pass, s.passes[a.pass].todo[0], RecStep(s, a));
  }

  lemma WithRecMaps(s: State, pass: PassId, op: OpId, r: (Effect, Option<Rec>))
    requires pass in s.passes
    ensures var s' := WithRec(s, pass, op, r);
            && s'.w == Perform(s.w, op, r.0) && s'.specs == s.specs
            && (pass in s'.passes <==> r.1.Some?) && (r.1.Some? ==> s'.passes[pass] == r.1.value)
            && (forall k :: k != pass ==> (k in s'.passes <==> k in s.passes))
            && (forall k :: k in s.passes && k != pass ==> SamePass(s.passes[k], s'.passes[k], Some(op)))
            && s'.apply.Keys == s.apply.Keys
            && (forall x :: x in s.apply ==> SameThread(s.apply[x], s'.apply[x]))
  {
    hide ThreadNotes, PassNotes, Perform, SameThread, SamePass;
    var s' := WithRec(s, pass, op, r);
    forall k | k in s.passes && k != pass ensures k in s'.passes && SamePass(s.passes[k], s'.passes[k], Some(op)) {
      Noted(op, FirstThread("", Spec([], map[], map[])), s.passes[k], op, r.0);
    }
    forall x | x in s.apply ensures SameThread(s.apply[x], s'.apply[x]) {
      Noted(x, s.apply[x], s.passes[pass], op, r.0);
    }
  }

  /** Where everybody is after any other step. */
  lemma QuietMaps(s: State, a: Action)
    requires Next(s, a).Some? && !a.Advance? && !a.Throw? && !ByReconcile(a)
    ensures var s' := Next(s, a).value;
            && (forall x :: x in s'.apply ==> (x in s.apply && SameThread(s.apply[x], s'.apply[x])) || a == Begin(x, s'.apply[x].planId))
            && (forall k :: k in s'.passes ==>
                  (k in s.passes && SamePass(s.passes[k], s'.passes[k], None)) || (a.StartReconcile? && a.pass == k))
  {
    hide WfSpec, ListsPending, FirstPass, TargetsFree;
  }

  /** An operation or a pass that begins, begins at the beginning. */
  lemma Beginnings(s: State, a: Action)
    requires Next(s, a).Some?
    ensures a.Begin? ==>
              && a.op !in s.w.receipts && a.op !in s.apply && a.planId in s.specs
              && Next(s, a).value == s.(apply := s.apply[a.op := FirstThread(a.planId, s.specs[a.planId])])
    ensures a.StartReconcile? ==>
              && a.pass !in s.passes && ListsPending(s.w, a.order)
              && Next(s, a).value == s.(passes := s.passes[a.pass := FirstPass(a.order, s.w.receipts)])
  {
    hide WfSpec, ListsPending, FirstPass, FirstThread, TargetsFree;
  }

  // ---------------------------------------------------------------- reconcile

  /**
    A receipt that a pass marks failed has every target at its precondition hash, except where
    somebody changed the file since this pass observed it: an edit from outside, or a running
    operation.
   */
  lemma ReconcileFailedMeansUnchanged(run: seq<State>, acts: seq<Action>, i: nat, op: OpId)
    requires IsRun(run, acts) && i < |acts| && ByReconcile(acts[i]) && Marks(run, acts, i, op, Failed)
    ensures acts[i].pass in run[i].passes
    ensures var s := run[i + 1];
            var m := run[i].passes[acts[i].pass];
            var r := s.w.receipts[op];
            && r.planId in s.specs && r.targets == s.specs[r.planId].targets
            && TargetsAt(s.w.files, r.targets, s.specs[r.planId].pre, m.edited + m.renamed)
            && RenamesKnown(s.specs, s.w.files, m)
  {
    StepOf(run, acts, i);
    PassMarks(run[i], acts[i], op, Failed);
    FailedByPass(run[i].w, run[i].specs, run[i].passes[acts[i].pass], acts[i]);
  }

  /** A pass changes the state of a receipt only by writing its head receipt. */
  lemma PassMarks(s: State, a: Action, op: OpId, st: ReceiptState)
    requires Inv(s) && Next(s, a).Some? && ByReconcile(a)
    requires var s' := Next(s, a).value;
             && op in s'.w.receipts && s'.w.receipts[op].state == st
             && !(op in s.w.receipts && s.w.receipts[op].state == st)
    ensures RecRunning(s, a.pass)
    ensures var m := s.passes[a.pass];
            var e := RecStep(s, a).0;
            var s' := Next(s, a).value;
            && m.todo[0] == op && HeadOk(s.specs, m) && HeadInv(s.w, m) && PassInv(s.w, s.specs, m)
            && e.PutReceipt? && e.receipt.state == st
            && s'.w == Perform(s.w, op, e) && s'.specs == s.specs && s'.w.receipts[op] == e.receipt
  {
    RecAction(s, a);
    hide AdvanceRec, ThrowRec, HeadInv, PassInv, Inv, Next, HeadOk;
    OnlyPutReceipt(s.w, s.passes[a.pass].todo[0], RecStep(s, a).0, op);
  }

  lemma FailedByPass(w: World, specs: map<PlanId, Spec>, m: Rec, a: Action)
    requires ByReconcile(a) && HeadOk(specs, m) && HeadInv(w, m)
    requires var e := (if a.RecAdvance? then AdvanceRec(w, m, a.pick) else ThrowRec(m, a.effect)).0;
             e.PutReceipt? && e.receipt.state == Failed
    ensures var c := m.copies[m.todo[0]];
            var e := (if a.RecAdvance? then AdvanceRec(w, m, a.pick) else ThrowRec(m, a.effect)).0;
            TargetsAt(w.files, c.targets, c.expected, m.edited + m.renamed)
            && e.receipt == c.(state := Failed, failure := InterruptedBeforeCommit)
  {
    assert m.pc.RecWriteFailed?;
    var c := m.copies[m.todo[0]];
    assert forall p :: p in c.targets ==> p in Elements(c.targets);
  }

  /**
    With no outside edit, and no plan that intends what this plan's precondition was: such a mark
    is true exactly when no running operation has written one of the targets since the pass
    observed it.
   */
  lemma FailedMarkTrueExactlyWhen(run: seq<State>, acts: seq<Action>, i: nat, op: OpId)
    requires IsRun(run, acts) && i < |acts| && ByReconcile(acts[i]) && Marks(run, acts, i, op, Failed)
    requires acts[i].pass in run[i].passes && run[i + 1].w.receipts[op].planId in run[i + 1].specs
    requires var s := run[i + 1];
             var spec := s.specs[s.w.receipts[op].planId];
             forall p :: p in spec.targets ==>
               && p !in run[i].passes[acts[i].pass].edited
               && forall q :: q in s.specs && p in s.specs[q].targets ==> Look(s.specs[q].intended, p) != Look(spec.pre, p)
    ensures var s := run[i + 1];
            var spec := s.specs[s.w.receipts[op].planId];
            TargetsAt(s.w.files, spec.targets, spec.pre, {})
            <==> forall p :: p in spec.targets ==> p !in run[i].passes[acts[i].pass].renamed
  {
    ReconcileFailedMeansUnchanged(run, acts, i, op);
    var s, m := run[i + 1], run[i].passes[acts[i].pass];
    var spec := s.specs[s.w.receipts[op].planId];
    forall p | p in spec.targets && p in m.renamed ensures Observed(s.w.files, p) != Look(spec.pre, p) {
      assert Intended(s.specs, s.w.files, p);
    }
  }

  /**
    A receipt that a pass marks completed: its plan is applied by this very operation, the
    managed targets record its hashes where nobody rewrote them since, and the targets are at
    those hashes where nobody changed them since.
   */
  lemma ReconcileCompletedMeansRecorded(run: seq<State>, acts: seq<Action>, i: nat, op: OpId)
    requires IsRun(run, acts) && i < |acts| && ByReconcile(acts[i]) && Marks(run, acts, i, op, Completed)
    ensures acts[i].pass in run[i].passes
    ensures var s := run[i + 1];
            var m := run[i].passes[acts[i].pass];
            var r := s.w.receipts[op];
            && r.planId in s.specs && r.targets == s.specs[r.planId].targets
            && (r.planId in s.w.plans ==> s.w.plans[r.planId] == Plan(Applied, Some(op)))
            && op in s.w.ops
            && ManagedBy(s.w, Elements(r.targets) - m.remanaged, op, r.committed)
            && TargetsAt(s.w.files, r.targets, r.committed, m.edited + m.renamed)
            && (r.committed == map[] || r.committed == s.specs[r.planId].intended)
  {
    StepOf(run, acts, i);
    PassMarks(run[i], acts[i], op, Completed);
    CompletedByPass(run[i].w, run[i].specs, run[i].passes[acts[i].pass], acts[i]);
    OpsNamePlans(run[i + 1], op);
  }

  lemma OpsNamePlans(s: State, op: OpId)
    requires Inv(s) && op in s.w.ops
    ensures op in s.w.receipts
    ensures var q := s.w.receipts[op].planId;
            q in s.w.plans ==> s.w.plans[q] == Plan(Applied, Some(op))
  {
    hide ReceiptsInv, ThreadsInv, PassesInv, WfSpec;
  }

  lemma CompletedByPass(w: World, specs: map<PlanId, Spec>, m: Rec, a: Action)
    requires ByReconcile(a) && HeadOk(specs, m) && HeadInv(w, m)
    requires var e := (if a.RecAdvance? then AdvanceRec(w, m, a.pick) else ThrowRec(m, a.effect)).0;
             e.PutReceipt? && e.receipt.state == Completed
    ensures var c := m.copies[m.todo[0]];
            && TargetsAt(w.files, c.targets, c.committed, m.edited + m.renamed)
            && m.todo[0] in w.ops
            && ManagedBy(w, Elements(c.targets) - m.remanaged, m.todo[0], c.committed)
            && var e := (if a.RecAdvance? then AdvanceRec(w, m, a.pick) else ThrowRec(m, a.effect)).0;
               e.receipt == c.(state := Completed, failure := NoFailure)
  {
    assert m.pc.RecWriteCompleted?;
    var c := m.copies[m.todo[0]];
    forall p | p in c.targets && p !in m.edited + m.renamed
      ensures Observed(w.files, p) == Look(c.committed, p)
    {
      assert p in Elements(c.targets);
      assert p in c.committed.Keys + m.obs.Keys;
    }
  }

  /**
    On the targets that nobody changed since the pass observed them, a completion it records is a
    true one exactly when the receipt recorded hashes, or the plan meant to delete them all.
   */
  lemma CompletionIsTrueExactlyWhen(run: seq<State>, acts: seq<Action>, i: nat, op: OpId)
    requires IsRun(run, acts) && i < |acts| && ByReconcile(acts[i]) && Marks(run, acts, i, op, Completed)
    ensures acts[i].pass in run[i].passes
    ensures var s := run[i + 1];
            var m := run[i].passes[acts[i].pass];
            var r := s.w.receipts[op];
            && r.planId in s.specs
            && var spec := s.specs[r.planId];
               TargetsAt(s.w.files, spec.targets, spec.intended, m.edited + m.renamed) <==>
                 (r.committed != map[]
                  || forall p :: p in spec.targets && p !in m.edited + m.renamed ==> Look(spec.intended, p) == None)
  {
    ReconcileCompletedMeansRecorded(run, acts, i, op);
  }

  /**
    A finished pass has filed every receipt it listed, each under the state it reports, unless
    somebody else has written that receipt since.
   */
  lemma FinishedPassFilesEverything(run: seq<State>, acts: seq<Action>, i: nat, op: OpId)
    requires IsRun(run, acts) && i < |acts| && acts[i].FinishReconcile? && acts[i].pass in run[i].passes
    requires op in run[i].passes[acts[i].pass].listed
    ensures var m := run[i].passes[acts[i].pass];
            var s := run[i + 1];
            && op in s.w.receipts
            && (op in m.reconciled <==> op !in m.ambiguous)
            && (op !in m.lost ==>
                  var st := s.w.receipts[op].state;
                  && (op in m.reconciled <==> st == Completed || st == Failed)
                  && (op in m.ambiguous <==> st == ReconciliationRequired))
  {
    StepOf(run, acts, i);
    FinishedState(run[i], acts[i].pass, op);
    hide Inv, PassInv;
  }

  lemma FinishedState(s: State, k: PassId, op: OpId)
    requires Inv(s) && Next(s, FinishReconcile(k)).Some? && op in s.passes[k].listed
    ensures Next(s, FinishReconcile(k)).value.w == s.w
    ensures var m := s.passes[k];
            && op in s.w.receipts && (op in m.reconciled <==> op !in m.ambiguous)
            && (op in m.reconciled ==> Done(s.w, m, op)) && (op in m.ambiguous ==> Flagged(s.w, m, op))
  {
    hide PlansInv, ReceiptsInv, ThreadsInv, HeadInv, RenamesKnown, Listed;
    assert PassInv(s.w, s.specs, s.passes[k]);
  }

  /** Step `j` is a step of operation `op` itself, or of a pass other than `k` at its receipt. */
  ghost predicate OthersAt(run: seq<State>, acts: seq<Action>, j: nat, k: PassId, op: OpId)
    requires |run| == |acts| + 1 && j < |acts|
  {
    || ((acts[j].Advance? || acts[j].Throw?) && acts[j].op == op)
    || (ByReconcile(acts[j]) && acts[j].pass != k && RecRunning(run[j], acts[j].pass)
        && run[j].passes[acts[j].pass].todo[0] == op)
  }

  lemma LostOnlyToOthers(run: seq<State>, acts: seq<Action>, i: nat, k: PassId, op: OpId)
    requires IsRun(run, acts) && i < |acts| && k in run[i].passes && k in run[i + 1].passes
    requires op !in run[i].passes[k].lost && op in run[i + 1].passes[k].lost
    ensures OthersAt(run, acts, i, k, op)
  {
    hide Next, Inv;
    StepOf(run, acts, i);
    var s, a := run[i], acts[i];
    if a.Advance? || a.Throw? {
      hide AdvanceThread, ThrowThread;
      ThreadMaps(s, a);
    } else if ByReconcile(a) {
      LostToPass(s, a, k, op);
    } else {
      QuietMaps(s, a);
      Beginnings(s, a);
    }
  }

  /** A pass appears with nothing lost. */
  lemma NothingLostAtFirst(run: seq<State>, acts: seq<Action>, i: nat, k: PassId)
    requires IsRun(run, acts) && i < |acts| && k !in run[i].passes && k in run[i + 1].passes
    ensures run[i + 1].passes[k].lost == {}
  {
    hide Next, Inv, AdvanceThread, ThrowThread, AdvanceRec, ThrowRec;
    StepOf(run, acts, i);
    var s, a := run[i], acts[i];
    if a.Advance? || a.Throw? {
      ThreadMaps(s, a);
    } else if ByReconcile(a) {
      RecMaps(s, a);
    } else {
      QuietMaps(s, a);
      Beginnings(s, a);
    }
  }

  /**
    A receipt is lost to a pass only to others: while the pass was on, the operation itself took a
    step, or another pass did at the same receipt.
   */
  lemma {:induction false} LostMeansOthers(run: seq<State>, acts: seq<Action>, i: nat, k: PassId, op: OpId)
    requires IsRun(run, acts) && i < |run| && k in run[i].passes && op in run[i].passes[k].lost
    ensures exists j :: 0 <= j < i && k in run[j].passes && OthersAt(run, acts, j, k, op)
  {
    hide Next, Inv, OthersAt;
    if i > 0 {
      if k !in run[i - 1].passes {
        NothingLostAtFirst(run, acts, i - 1, k);
      } else if op in run[i - 1].passes[k].lost {
        LostMeansOthers(run, acts, i - 1, k, op);
      } else {
        LostOnlyToOthers(run, acts, i - 1, k, op);
      }
    }
  }

  lemma LostToPass(s: State, a: Action, k: PassId, op: OpId)
    requires Inv(s) && Next(s, a).Some? && ByReconcile(a) && k in s.passes && k in Next(s, a).value.passes
    requires op !in s.passes[k].lost && op in Next(s, a).value.passes[k].lost
    ensures a.pass != k && RecRunning(s, a.pass) && s.passes[a.pass].todo[0] == op
  {
    hide Next, Inv, AdvanceRec, ThrowRec;
    RecMaps(s, a);
    OwnLost(s.w, s.passes[a.pass], a);
  }

  lemma OwnLost(w: World, m: Rec, a: Action)
    requires ByReconcile(a) && m.todo != [] && m.todo[0] in m.copies
    ensures var r := (if a.RecAdvance? then AdvanceRec(w, m, a.pick) else ThrowRec(m, a.effect)).1;
            r.Some? ==> r.value.lost <= m.lost
  {
  }

  // ---------------------------------------------------------------- applyPlan

  /**
    A receipt that `applyPlan` marks completed is a true completion, up to what was edited from
    outside since its check and to managed targets that a pass rewrote since.
   */
  lemma ApplyCompletedMeansIntended(run: seq<State>, acts: seq<Action>, i: nat, op: OpId)
    requires IsRun(run, acts) && i < |acts| && !ByReconcile(acts[i]) && Marks(run, acts, i, op, Completed)
    ensures op in run[i].apply
    ensures var s := run[i + 1];
            var t := run[i].apply[op];
            && t.planId in s.specs
            && (t.planId in s.w.plans ==> s.w.plans[t.planId] == Plan(Applied, Some(op)))
            && ManagedBy(s.w, Elements(s.specs[t.planId].targets) - t.remanaged, op, s.specs[t.planId].intended)
            && TargetsAt(s.w.files, s.specs[t.planId].targets, s.specs[t.planId].intended, t.edited)
  {
    hide Inv, Next, ThreadInv;
    StepOf(run, acts, i);
    ThreadMarks(run, acts, i, op, Completed);
    CompletionIsTrue(run[i], acts[i], op);
  }

  /** The step that writes the completed receipt, whatever the receipt said before. */
  lemma CompletionIsTrue(s: State, a: Action, op: OpId)
    requires Inv(s) && Next(s, a).Some? && (a.Advance? || a.Throw?) && a.op == op && op in s.apply
    requires s.apply[op].planId in s.specs
    requires var e := ThreadStep(s, a).0; e.PutReceipt? && e.receipt.state == Completed
    ensures var s', t := Next(s, a).value, s.apply[op];
            && s'.specs == s.specs && op in s'.w.receipts && s'.w.receipts[op].state == Completed
            && (t.planId in s'.w.plans ==> s'.w.plans[t.planId] == Plan(Applied, Some(op)))
            && ManagedBy(s'.w, Elements(s.specs[t.planId].targets) - t.remanaged, op, s.specs[t.planId].intended)
            && TargetsAt(s'.w.files, s.specs[t.planId].targets, s.specs[t.planId].intended, t.edited)
  {
    ThreadAction(s, a);
    KnownThread(s, op);
    CompletedByThread(s.w, s.specs, s.apply[op], op, a);
    OpsNamePlans(s, op);
    hide Inv, Next, ThreadInv, AdvanceThread, ThrowThread, WfSpec;
  }

  /** Outside `reconcile`, a receipt changes state only by a receipt write of its own thread. */
  lemma ThreadMarks(run: seq<State>, acts: seq<Action>, i: nat, op: OpId, st: ReceiptState)
    requires IsRun(run, acts) && i < |acts| && !ByReconcile(acts[i]) && Marks(run, acts, i, op, st)
    ensures (acts[i].Advance? || acts[i].Throw?) && acts[i].op == op && op in run[i].apply
    ensures run[i].apply[op].planId in run[i].specs && ThreadInv(run[i].w, run[i].specs, op, run[i].apply[op])
    ensures var e := ThreadStep(run[i], acts[i]).0;
            e.PutReceipt? && e.receipt.state == st && run[i + 1].w == Perform(run[i].w, op, e)
    ensures run[i + 1].specs == run[i].specs
  {
    hide AdvanceThread, ThrowThread, WfSpec;
    StepOf(run, acts, i);
    if acts[i].Advance? || acts[i].Throw? {
      ThreadAction(run[i], acts[i]);
      KnownThread(run[i], acts[i].op);
      hide Inv, Next, ThreadInv;
      OnlyPutReceipt(run[i].w, acts[i].op, ThreadStep(run[i], acts[i]).0, op);
    } else {
      QuietAction(run[i], acts[i]);
    }
  }

  lemma CompletedByThread(w: World, specs: map<PlanId, Spec>, t: Thread, op: OpId, a: Action)
    requires (a.Advance? || a.Throw?) && ThreadInv(w, specs, op, t) && WfSpec(specs[t.planId])
    requires var spec := specs[t.planId];
             var e := (if a.Advance? then AdvanceThread(w, spec, op, t, a.pick) else ThrowThread(spec, t, a.effect)).0;
             e.PutReceipt? && e.receipt.state == Completed
    ensures op in w.ops && op in w.receipts && w.receipts[op].planId == t.planId
    ensures var spec := specs[t.planId];
            var e := (if a.Advance? then AdvanceThread(w, spec, op, t, a.pick) else ThrowThread(spec, t, a.effect)).0;
            e.receipt.planId == t.planId
    ensures ManagedBy(w, Elements(specs[t.planId].targets) - t.remanaged, op, specs[t.planId].intended)
    ensures TargetsAt(w.files, specs[t.planId].targets, specs[t.planId].intended, t.edited)
  {
    assert t.pc.WriteCompleted?;
    var spec := specs[t.planId];
    forall p | p in spec.targets && p !in t.edited ensures Observed(w.files, p) == Look(spec.intended, p) {
      var k :| 0 <= k < |spec.targets| && spec.targets[k] == p;
    }
  }

  lemma KnownThread(s: State, op: OpId)
    requires Inv(s) && op in s.apply
    ensures ThreadInv(s.w, s.specs, op, s.apply[op]) && s.apply[op].planId in s.specs && WfSpec(s.specs[s.apply[op].planId])
    ensures var t := s.apply[op];
            op in s.w.ops && t.planId in s.w.plans && !t.pc.WritePrepared? ==> s.w.plans[t.planId].state == Applied
  {
    hide ReceiptsInv, PassesInv;
    assert ThreadInv(s.w, s.specs, op, s.apply[op]);
  }

  lemma FailedByThread(w: World, specs: map<PlanId, Spec>, t: Thread, op: OpId, a: Action)
    requires (a.Advance? || a.Throw?) && ThreadShape(specs, t)
    requires var spec := specs[t.planId];
             var e := (if a.Advance? then AdvanceThread(w, spec, op, t, a.pick) else ThrowThread(spec, t, a.effect)).0;
             e.PutReceipt? && e.receipt.state == Failed
    ensures t.pc.WriteFailed? && t.count == if Misfiled(t) then |specs[t.planId].targets| else 0
  {
  }

  ghost predicate WritesFile(run: seq<State>, acts: seq<Action>, j: nat, op: OpId)
    requires |run| == |acts| + 1 && j < |acts|
  {
    (acts[j].Advance? || acts[j].Throw?) && acts[j].op == op && run[j + 1].w.files != run[j].w.files
  }

  lemma WritingThread(w: World, specs: map<PlanId, Spec>, t: Thread, op: OpId, a: Action)
    requires (a.Advance? || a.Throw?) && ThreadInv(w, specs, op, t)
    requires var spec := specs[t.planId];
             var e := (if a.Advance? then AdvanceThread(w, spec, op, t, a.pick) else ThrowThread(spec, t, a.effect)).0;
             e.WriteFile?
    ensures t.pc.Rename? && t.planId in w.owner && w.owner[t.planId] == op
    ensures op in w.receipts && w.receipts[op].planId == t.planId
    ensures var spec := specs[t.planId];
            var t' := (if a.Advance? then AdvanceThread(w, spec, op, t, a.pick) else ThrowThread(spec, t, a.effect)).1;
            t'.Some? && t'.value.count > 0
  {
  }

  lemma OnlyWriteFile(w: World, op: OpId, e: Effect)
    ensures Perform(w, op, e).files != w.files ==> e.WriteFile?
  {
  }

  /** A step that changes files belongs to the operation that took the plan, at its rename. */
  lemma WriterHoldsPlan(run: seq<State>, acts: seq<Action>, j: nat, op: OpId)
    requires IsRun(run, acts) && j < |acts| && WritesFile(run, acts, j, op)
    ensures op in run[j].apply && run[j].apply[op].pc.Rename?
    ensures op in run[j].w.receipts && run[j].w.receipts[op].planId == run[j].apply[op].planId
    ensures run[j].apply[op].planId in run[j].w.owner && run[j].w.owner[run[j].apply[op].planId] == op
    ensures op in run[j + 1].apply && run[j + 1].apply[op].count > 0
  {
    StepOf(run, acts, j);
    ThreadAction(run[j], acts[j]);
    OnlyWriteFile(run[j].w, op, ThreadStep(run[j], acts[j]).0);
    KnownThread(run[j], op);
    hide Inv, Next, AdvanceThread, ThrowThread, ThreadInv, WfSpec, Perform;
    WritingThread(run[j].w, run[j].specs, run[j].apply[op], op, acts[j]);
  }

  lemma ReceiptKept(s: State, a: Action, op: OpId)
    requires Inv(s) && Next(s, a).Some? && op in s.w.receipts
    ensures op in Next(s, a).value.w.receipts
  {
    hide AdvanceThread, ThrowThread, AdvanceRec, ThrowRec, HeadInv, PassInv, WfSpec;
    if a.Advance? || a.Throw? {
      ThreadAction(s, a);
      hide Inv, Next;
      OnlyPutReceipt(s.w, a.op, ThreadStep(s, a).0, op);
    } else if ByReconcile(a) {
      RecAction(s, a);
      hide Inv, Next;
      OnlyPutReceipt(s.w, s.passes[a.pass].todo[0], RecStep(s, a).0, op);
    } else {
      QuietAction(s, a);
    }
  }

  lemma ReceiptKeptAt(run: seq<State>, acts: seq<Action>, i: nat, op: OpId)
    requires IsRun(run, acts) && i < |acts| && op in run[i].w.receipts
    ensures op in run[i + 1].w.receipts
  {
    StepOf(run, acts, i);
    ReceiptKept(run[i], acts[i], op);
  }

  /** Receipts are never removed. */
  lemma {:induction false} ReceiptsStay(run: seq<State>, acts: seq<Action>, i: nat, j: nat, op: OpId)
    requires IsRun(run, acts) && i <= j < |run| && op in run[i].w.receipts
    ensures op in run[j].w.receipts
    decreases j
  {
    if i < j {
      ReceiptsStay(run, acts, i, j - 1, op);
      ReceiptKeptAt(run, acts, j - 1, op);
    }
  }

  lemma CountNeverFalls(s: State, a: Action, op: OpId)
    requires Inv(s) && Next(s, a).Some? && op in s.apply && op in Next(s, a).value.apply
    ensures s.apply[op].count <= Next(s, a).value.apply[op].count
  {
    hide Inv, Next, AdvanceThread, ThrowThread, AdvanceRec, ThrowRec, Perform;
    if a.Advance? || a.Throw? {
      ThreadMaps(s, a);
      OwnCount(s.w, s.specs[s.apply[a.op].planId], s.apply[a.op], a);
    } else if ByReconcile(a) {
      RecMaps(s, a);
    } else {
      QuietMaps(s, a);
      Beginnings(s, a);
    }
  }

  lemma OwnCount(w: World, spec: Spec, t: Thread, a: Action)
    requires a.Advance? || a.Throw?
    ensures var r := (if a.Advance? then AdvanceThread(w, spec, a.op, t, a.pick) else ThrowThread(spec, t, a.effect)).1;
            r.Some? ==> t.count <= r.value.count
  {
    hide Look, PreconditionsHold;
  }

  /** While a thread has renamed nothing, no earlier step of its operation changed a file. */
  lemma {:induction false} NoRenameSoFar(run: seq<State>, acts: seq<Action>, i: nat, op: OpId, j: nat)
    requires IsRun(run, acts) && j < i < |run| && op in run[i].apply && run[i].apply[op].count == 0
    ensures !WritesFile(run, acts, j, op)
    decreases i
  {
    hide Next, Inv;
    if WritesFile(run, acts, j, op) {
      WriterHoldsPlan(run, acts, j, op);
      if j < i - 1 {
        StepOf(run, acts, i - 1);
        ReceiptsStay(run, acts, j, i - 1, op);
        if op in run[i - 1].apply {
          CountNeverFalls(run[i - 1], acts[i - 1], op);
          NoRenameSoFar(run, acts, i - 1, op, j);
        } else {
          OnlyBeginStarts(run[i - 1], acts[i - 1], op);
        }
      }
    }
  }

  lemma OnlyBeginStarts(s: State, a: Action, op: OpId)
    requires Next(s, a).Some? && op !in s.apply && op in Next(s, a).value.apply
    ensures op !in s.w.receipts
  {
  }

  // ---------------------------------------------------------------- failed by applyPlan

  /** The receipt that should say that the completion failed could not be written. */
  ghost predicate LosesReceipt(run: seq<State>, acts: seq<Action>, j: nat, op: OpId)
    requires |run| == |acts| + 1 && j < |acts|
  {
    acts[j].Throw? && acts[j].op == op && op in run[j].apply && run[j].apply[op].pc.WriteProjectionFailed?
  }

  /** Only that loss makes an operation misfiled, and it stays so to the end. */
  lemma MisfiledStep(s: State, a: Action, op: OpId)
    requires Inv(s) && Next(s, a).Some? && op in s.apply && op in Next(s, a).value.apply
    ensures Misfiled(Next(s, a).value.apply[op]) <==>
              Misfiled(s.apply[op]) || (a.Throw? && a.op == op && s.apply[op].pc.WriteProjectionFailed?)
  {
    hide Inv, Next, ThreadInv, Misfiled, AdvanceThread, ThrowThread, AdvanceRec, ThrowRec;
    if a.Advance? || a.Throw? {
      ThreadMaps(s, a);
      if a.op == op {
        ShapeKnown(s, op);
        OwnMisfiled(s.w, s.specs, s.apply[op], op, a);
      } else {
        SameMisfiled(s.apply[op], Next(s, a).value.apply[op]);
      }
    } else {
      if ByReconcile(a) {
        RecMaps(s, a);
      } else {
        QuietMaps(s, a);
        Beginnings(s, a);
      }
      SameMisfiled(s.apply[op], Next(s, a).value.apply[op]);
    }
  }

  lemma SameMisfiled(t: Thread, t': Thread)
    requires SameThread(t, t')
    ensures Misfiled(t') <==> Misfiled(t)
  {
  }

  lemma ShapeKnown(s: State, op: OpId)
    requires Inv(s) && op in s.apply
    ensures ThreadShape(s.specs, s.apply[op])
  {
    KnownThread(s, op);
  }

  lemma OwnMisfiled(w: World, specs: map<PlanId, Spec>, t: Thread, op: OpId, a: Action)
    requires (a.Advance? || a.Throw?) && ThreadShape(specs, t)
    ensures var spec := specs[t.planId];
            var r := (if a.Advance? then AdvanceThread(w, spec, op, t, a.pick) else ThrowThread(spec, t, a.effect)).1;
            r.Some? ==> (Misfiled(r.value) <==> Misfiled(t) || (a.Throw? && t.pc.WriteProjectionFailed?))
  {
    hide GoodReceipt;
  }

  /** An operation that begins is not misfiled, and nothing of it was lost before. */
  lemma NotMisfiledAtFirst(run: seq<State>, acts: seq<Action>, i: nat, op: OpId)
    requires IsRun(run, acts) && i < |acts| && op !in run[i].apply && op in run[i + 1].apply
    ensures !Misfiled(run[i + 1].apply[op]) && forall j :: 0 <= j <= i ==> !LosesReceipt(run, acts, j, op)
  {
    StepOf(run, acts, i);
    var s, a := run[i], acts[i];
    hide Next, Inv;
    assert a.Begin? && a.op == op by {
      if a.Advance? || a.Throw? {
        ThreadMaps(s, a);
      } else if ByReconcile(a) {
        RecMaps(s, a);
      } else {
        QuietMaps(s, a);
      }
    }
    Beginnings(s, a);
    forall j | 0 <= j <= i ensures !LosesReceipt(run, acts, j, op) {
      if LosesReceipt(run, acts, j, op) {
        StepOf(run, acts, j);
        ReceiptPresent(run[j], op);
        ReceiptsStay(run, acts, j, i, op);
      }
    }
  }

  lemma {:induction false} MisfiledExactlyWhen(run: seq<State>, acts: seq<Action>, i: nat, op: OpId)
    requires IsRun(run, acts) && i < |run| && op in run[i].apply
    ensures Misfiled(run[i].apply[op]) <==> exists j :: 0 <= j < i && LosesReceipt(run, acts, j, op)
  {
    hide Next, Inv, StepAt, LosesReceipt, Misfiled;
    if i > 0 {
      if op in run[i - 1].apply {
        MisfiledAfter(run, acts, i - 1, op);
        MisfiledExactlyWhen(run, acts, i - 1, op);
      } else {
        NotMisfiledAtFirst(run, acts, i - 1, op);
      }
    }
  }

  lemma MisfiledAfter(run: seq<State>, acts: seq<Action>, i: nat, op: OpId)
    requires IsRun(run, acts) && i < |acts| && op in run[i].apply && op in run[i + 1].apply
    ensures Misfiled(run[i + 1].apply[op]) <==> Misfiled(run[i].apply[op]) || LosesReceipt(run, acts, i, op)
  {
    hide Next, Inv;
    StepOf(run, acts, i);
    MisfiledStep(run[i], acts[i], op);
  }

  lemma ReceiptPresent(s: State, op: OpId)
    requires Inv(s) && op in s.apply && !s.apply[op].pc.WritePrepared?
    ensures op in s.w.receipts
  {
    KnownThread(s, op);
  }

  /**
    An operation that `applyPlan` records as failed has renamed none of its files, exactly when
    it never lost the receipt that should say that the completion failed; otherwise it has
    renamed all of them.
   */
  lemma FailedUntouchedExactlyWhen(run: seq<State>, acts: seq<Action>, i: nat, op: OpId)
    requires IsRun(run, acts) && i < |acts| && !ByReconcile(acts[i]) && Marks(run, acts, i, op, Failed)
    ensures op in run[i].apply && run[i].apply[op].planId in run[i].specs
    ensures var t := run[i].apply[op];
            && (t.count == 0 <==> !(exists j :: 0 <= j < i && LosesReceipt(run, acts, j, op)))
            && (t.count > 0 ==> t.count == |run[i].specs[t.planId].targets|)
    ensures run[i].apply[op].count == 0 ==> forall j :: 0 <= j <= i ==> !WritesFile(run, acts, j, op)
  {
    hide Next, Inv;
    ThreadMarks(run, acts, i, op, Failed);
    StepOf(run, acts, i);
    KnownThread(run[i], op);
    var t := run[i].apply[op];
    FailedByThread(run[i].w, run[i].specs, t, op, acts[i]);
    MisfiledExactlyWhen(run, acts, i, op);
    hide ThreadInv, AdvanceThread, ThrowThread;
    if t.count == 0 {
      forall j | 0 <= j <= i ensures !WritesFile(run, acts, j, op) {
        if j < i {
          NoRenameSoFar(run, acts, i, op, j);
        } else {
          FailedWritesReceipt(run, acts, i, op);
        }
      }
    }
  }

  lemma FailedWritesReceipt(run: seq<State>, acts: seq<Action>, i: nat, op: OpId)
    requires IsRun(run, acts) && i < |acts| && !ByReconcile(acts[i]) && Marks(run, acts, i, op, Failed)
    ensures !WritesFile(run, acts, i, op)
  {
    hide Next, Inv, AdvanceThread, ThrowThread;
    ThreadMarks(run, acts, i, op, Failed);
  }

  lemma OwnerKept(w: World, op: OpId, e: Effect, planId: PlanId)
    requires planId in w.owner && (planId in w.plans ==> w.plans[planId].state != Approved)
    ensures planId in Perform(w, op, e).owner && Perform(w, op, e).owner[planId] == w.owner[planId]
  {
  }

  lemma OwnerKeptAt(run: seq<State>, acts: seq<Action>, i: nat, planId: PlanId)
    requires IsRun(run, acts) && i < |acts| && planId in run[i].w.owner
    ensures planId in run[i + 1].w.owner && run[i + 1].w.owner[planId] == run[i].w.owner[planId]
  {
    hide AdvanceThread, ThrowThread, AdvanceRec, ThrowRec, HeadInv, PassInv, WfSpec, ThreadsInv, PassesInv, ReceiptsInv;
    StepOf(run, acts, i);
    var s, a := run[i], acts[i];
    assert planId in s.w.plans ==> s.w.plans[planId].state != Approved;
    if a.Advance? || a.Throw? {
      ThreadAction(s, a);
      hide Inv, Next;
      OwnerKept(s.w, a.op, ThreadStep(s, a).0, planId);
    } else if ByReconcile(a) {
      RecAction(s, a);
      hide Inv, Next;
      OwnerKept(s.w, s.passes[a.pass].todo[0], RecStep(s, a).0, planId);
    } else {
      QuietAction(s, a);
    }
  }

  lemma {:induction false} OwnerStays(run: seq<State>, acts: seq<Action>, i: nat, j: nat, planId: PlanId)
    requires IsRun(run, acts) && i <= j < |run| && planId in run[i].w.owner
    ensures planId in run[j].w.owner && run[j].w.owner[planId] == run[i].w.owner[planId]
    decreases j
  {
    if i < j {
      OwnerStays(run, acts, i, j - 1, planId);
      OwnerKeptAt(run, acts, j - 1, planId);
    }
  }

  /** An approval is used at most once: one plan's files are written by one operation only. */
  lemma OneWriterPerPlan(run: seq<State>, acts: seq<Action>, i: nat, j: nat, op: OpId, other: OpId)
    requires IsRun(run, acts) && i <= j < |acts|
    requires WritesFile(run, acts, i, op) && WritesFile(run, acts, j, other)
    requires op in run[i].apply && other in run[j].apply && run[i].apply[op].planId == run[j].apply[other].planId
    ensures op == other
  {
    WriterHoldsPlan(run, acts, i, op);
    WriterHoldsPlan(run, acts, j, other);
    OwnerStays(run, acts, i, j, run[i].apply[op].planId);
  }

  // ---------------------------------------------------------------- settled receipts

  /** No operation, and no pass still to come to it, will write this receipt. */
  ghost predicate Settled(s: State, op: OpId) {
    && op in s.w.receipts && !Pending(s.w.receipts[op].state)
    && op !in s.apply
    && (forall k :: k in s.passes ==> op !in s.passes[k].todo)
  }

  lemma StepKeepsSettled(s: State, a: Action, op: OpId)
    requires Inv(s) && Next(s, a).Some? && Settled(s, op)
    ensures Settled(Next(s, a).value, op) && Next(s, a).value.w.receipts[op] == s.w.receipts[op]
  {
    hide Pending;
    if ByReconcile(a) {
      PassKeepsSettled(s, a, op);
    } else if a.Advance? || a.Throw? {
      ThreadKeepsSettled(s, a, op);
    } else {
      QuietKeepsSettled(s, a, op);
    }
  }

  lemma PassKeepsSettled(s: State, a: Action, op: OpId)
    requires Inv(s) && Next(s, a).Some? && Settled(s, op) && ByReconcile(a)
    ensures Settled(Next(s, a).value, op) && Next(s, a).value.w.receipts[op] == s.w.receipts[op]
  {
    hide AdvanceRec, ThrowRec, Inv, Next, Perform, Pending;
    RecMaps(s, a);
    RecTodoShrinks(s.w, s.passes[a.pass], a);
    OnlyPutReceipt(s.w, s.passes[a.pass].todo[0], RecStep(s, a).0, op);
  }

  lemma ThreadKeepsSettled(s: State, a: Action, op: OpId)
    requires Inv(s) && Next(s, a).Some? && Settled(s, op) && (a.Advance? || a.Throw?)
    ensures Settled(Next(s, a).value, op) && Next(s, a).value.w.receipts[op] == s.w.receipts[op]
  {
    ThreadMaps(s, a);
    OnlyPutReceipt(s.w, a.op, ThreadStep(s, a).0, op);
    hide AdvanceThread, ThrowThread, Inv, Next, Perform, Pending;
  }

  lemma QuietKeepsSettled(s: State, a: Action, op: OpId)
    requires Inv(s) && Next(s, a).Some? && Settled(s, op) && !a.Advance? && !a.Throw? && !ByReconcile(a)
    ensures Settled(Next(s, a).value, op) && Next(s, a).value.w.receipts[op] == s.w.receipts[op]
  {
    QuietAction(s, a);
    QuietMaps(s, a);
    Beginnings(s, a);
    hide Inv, Next;
    if a.StartReconcile? {
      assert op !in Elements(a.order);
      assert forall x :: x in a.order ==> x in Elements(a.order);
    }
  }

  lemma RecTodoShrinks(w: World, m: Rec, a: Action)
    requires ByReconcile(a) && m.todo != [] && m.todo[0] in m.copies
    ensures var r := (if a.RecAdvance? then AdvanceRec(w, m, a.pick) else ThrowRec(m, a.effect)).1;
            r.Some? ==> forall op :: op in r.value.todo ==> op in m.todo
  {
  }

  lemma KeepsSettledAt(run: seq<State>, acts: seq<Action>, i: nat, op: OpId)
    requires IsRun(run, acts) && i < |acts| && Settled(run[i], op)
    ensures Settled(run[i + 1], op) && run[i + 1].w.receipts[op] == run[i].w.receipts[op]
  {
    StepOf(run, acts, i);
    StepKeepsSettled(run[i], acts[i], op);
  }

  /** Once settled, a receipt is never rewritten: not by a crash, an operation or another pass. */
  lemma {:induction false} SettledForever(run: seq<State>, acts: seq<Action>, i: nat, j: nat, op: OpId)
    requires IsRun(run, acts) && i <= j < |run| && Settled(run[i], op)
    ensures Settled(run[j], op) && run[j].w.receipts[op] == run[i].w.receipts[op]
    decreases j
  {
    if i < j {
      SettledForever(run, acts, i, j - 1, op);
      KeepsSettledAt(run, acts, j - 1, op);
    }
  }
}
