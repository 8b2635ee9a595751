/**
  `reconcile` as the imperative code it is: each await a call that may throw with or without its
  effect, and anything may happen in the daemon while it waits.
 */
module ConfigService {
  import opened Prelude
  import opened ConfigPolicy
  import opened ConfigProtocol
  import opened ConfigSafety
  import opened ConfigRecovery
  import opened ConfigDaemon

  /** Settled by a pass, one way or the other. */
  predicate Resolved(st: ReceiptState) {
    st == Completed || st == Failed
  }

  datatype Filing = Reconciled | Flagged | Gone

  datatype Outcome = Success(reconciled: seq<OpId>) | NeedsReview(ambiguous: seq<OpId>) | Threw

  // ---------------------------------------------------------------- where a pass is

  /** Pass `k` is at await `pc` of receipt `r`, which is operation `op`'s. */
  ghost predicate At(passes: map<PassId, Rec>, k: PassId, op: OpId, r: Receipt, pc: RPc) {
    && k in passes && passes[k].todo != [] && passes[k].todo[0] == op
    && op in passes[k].copies && passes[k].copies[op] == r && passes[k].pc == pc
  }

  /** The pass has filed nothing in between. */
  ghost predicate Same(before: Rec, passes: map<PassId, Rec>, k: PassId) {
    && k in passes
    && passes[k].listed == before.listed && passes[k].copies == before.copies && passes[k].todo == before.todo
    && passes[k].reconciled == before.reconciled && passes[k].ambiguous == before.ambiguous
  }

  /** The pass has gone on to the next receipt, and `op` is on the list that `f` says. */
  ghost predicate Files(before: Rec, op: OpId, f: Filing, passes: map<PassId, Rec>, k: PassId)
    requires before.todo != []
  {
    if f.Gone? then k !in passes
    else
      && k in passes
      && passes[k].listed == before.listed && passes[k].copies == before.copies
      && passes[k].todo == before.todo[1..] && Fresh(passes[k])
      && passes[k].reconciled == before.reconciled + (if f.Reconciled? then [op] else [])
      && passes[k].ambiguous == before.ambiguous + (if f.Flagged? then [op] else [])
  }

  ghost predicate Fresh(m: Rec) {
    m.pc == Observe && m.obs == map[] && m.done == {}
  }

  /** What a pass looks like between two receipts. */
  ghost predicate Between(passes: map<PassId, Rec>, k: PassId, order: seq<OpId>, copies: map<OpId, Receipt>, i: nat,
                          reconciled: seq<OpId>, ambiguous: seq<OpId>)
    requires i <= |order|
  {
    && k in passes && Fresh(passes[k])
    && passes[k].listed == order && passes[k].copies == copies && passes[k].todo == order[i..]
    && passes[k].reconciled == reconciled && passes[k].ambiguous == ambiguous
  }

  /**
    The last step of the run finished pass `k`: of the receipts it listed, those in `ambiguous` are
    left for review and the others settled, except where somebody else has written the receipt
    since the pass filed it.
   */
  ghost predicate Reported(run: seq<State>, acts: seq<Action>, k: PassId, order: seq<OpId>, ambiguous: seq<OpId>) {
    && |run| == |acts| + 1 && acts != [] && acts[|acts| - 1] == FinishReconcile(k) && k in run[|acts| - 1].passes
    && (forall op :: op in ambiguous ==> op in order)
    && forall op :: op in order ==>
         && op in run[|acts|].w.receipts
         && (op in run[|acts| - 1].passes[k].lost
             || if op in ambiguous then run[|acts|].w.receipts[op].state == ReconciliationRequired
                else Resolved(run[|acts|].w.receipts[op].state))
  }

  /** The last step of the history was the pass's own, over these receipts, and it threw. */
  ghost predicate Quit(d: Daemon, k: PassId, order: seq<OpId>)
    reads d
  {
    k !in d.passes && LastThrew(d.run, d.acts, k, order)
  }

  ghost predicate LastThrew(run: seq<State>, acts: seq<Action>, k: PassId, order: seq<OpId>) {
    && acts != [] && |run| == |acts| + 1 && acts[|acts| - 1].RecThrow? && acts[|acts| - 1].pass == k
    && k in run[|acts| - 1].passes && run[|acts| - 1].passes[k].listed == order
  }

  // ---------------------------------------------------------------- awaits

  /**
    One durable step of pass `k` for `op`. It may throw, and the step may have landed all the
    same if `mayLand`; it can only succeed if `can`, which is how a compare-and-set refuses.
   */
  method Durable(d: Daemon, k: PassId, op: OpId, e: Effect, can: bool, mayLand: bool, pick: Path) returns (ok: bool)
    requires d.Valid() && RecRunning(d.Now(), k) && op == d.passes[k].todo[0]
    requires can ==> AdvanceRec(d.w, d.passes[k], pick).0 == e
    requires ThrowRec(d.passes[k], false) == (Nothing, ThrowRec(d.passes[k], true).1)
    requires mayLand ==> ThrowRec(d.passes[k], true).0 == e
    modifies d
    ensures d.Valid()
    ensures ok ==> can && d.w == Perform(old(d.w), op, e)
                   && PassIs(d.passes, k, AdvanceRec(old(d.w), old(d.passes)[k], pick).1)
    ensures !ok ==> PassIs(d.passes, k, ThrowRec(old(d.passes)[k], false).1)
    ensures !ok ==> LastThrew(d.run, d.acts, k, old(d.passes)[k].listed)
  {
    hide AdvanceRec, ThrowRec, Perform, IsRun, WithRec;
    ghost var was := d.Now();
    PassRunLength(d.run, d.acts);
    ok := *;
    ok := ok && can;
    var landed: bool := *;
    landed := landed && mayLand;
    if ok {
      d.TakePass(k, op, e, AdvanceRec(d.w, d.passes[k], pick).1);
      assert Next(was, RecAdvance(k, pick)) == Some(d.Now());
      d.Log(RecAdvance(k, pick));
    } else {
      d.TakePass(k, op, if landed then e else Nothing, ThrowRec(d.passes[k], landed).1);
      assert Next(was, RecThrow(k, landed)) == Some(d.Now());
      d.Log(RecThrow(k, landed));
    }
  }

  lemma PassRunLength(run: seq<State>, acts: seq<Action>)
    requires IsRun(run, acts)
    ensures |run| == |acts| + 1
  {
  }

  ghost predicate PassIs(passes: map<PassId, Rec>, k: PassId, m: Option<Rec>) {
    (k in passes <==> m.Some?) && (m.Some? ==> passes[k] == m.value)
  }

  /** Reading the hash of every target. */
  method ObserveTargets(d: Daemon, k: PassId, op: OpId, r: Receipt) returns (ok: bool, observed: HashMap)
    requires d.Valid() && At(d.passes, k, op, r, Observe) && Fresh(d.passes[k]) && Distinct(r.targets)
    modifies d
    ensures d.Valid()
    ensures ok ==> At(d.passes, k, op, r, ReadPlan) && Same(old(d.passes)[k], d.passes, k)
                   && d.passes[k].done == {} && d.passes[k].obs == observed
    ensures !ok ==> Quit(d, k, old(d.passes)[k].listed)
  {
    hide IsRun, Perform;
    observed := map[];
    for j := 0 to |r.targets|
      invariant d.Valid() && At(d.passes, k, op, r, Observe) && Same(old(d.passes)[k], d.passes, k)
      invariant d.passes[k].done == {} && d.passes[k].obs == observed && observed.Keys == Elements(r.targets[..j])
    {
      d.Elsewhere(Pass(k));
      NextTarget(r.targets, j);
      var p := r.targets[j];
      observed := observed[p := Observed(d.w.files, p)];
      ok := Durable(d, k, op, Nothing, true, true, p);
      if !ok {
        return;
      }
    }
    assert r.targets[..|r.targets|] == r.targets;
    ok := EndObserving(d, k, op, r);
  }

  /** `Promise.all` is done. */
  method EndObserving(d: Daemon, k: PassId, op: OpId, ghost r: Receipt) returns (ok: bool)
    requires d.Valid() && At(d.passes, k, op, r, Observe) && d.passes[k].obs.Keys >= Elements(r.targets)
    modifies d
    ensures d.Valid()
    ensures ok ==> At(d.passes, k, op, r, ReadPlan) && Same(old(d.passes)[k], d.passes, k)
                   && d.passes[k].done == old(d.passes)[k].done && d.passes[k].obs == old(d.passes)[k].obs
    ensures !ok ==> Quit(d, k, old(d.passes)[k].listed)
  {
    hide IsRun, Perform;
    ok := Durable(d, k, op, Nothing, true, true, "");
  }

  /** Reading the plan and the operation of the receipt. */
  method ReadRedis(d: Daemon, k: PassId, op: OpId, r: Receipt, ghost observed: HashMap)
    returns (ok: bool, plan: Option<PlanState>, projected: bool)
    requires d.Valid() && At(d.passes, k, op, r, ReadPlan) && d.passes[k].done == {} && d.passes[k].obs == observed
    modifies d
    ensures d.Valid()
    ensures ok ==> At(d.passes, k, op, r, DecisionPc(Decide(r, observed, plan, projected)))
                   && Same(old(d.passes)[k], d.passes, k) && d.passes[k].done == {}
    ensures !ok ==> Quit(d, k, old(d.passes)[k].listed)
  {
    hide IsRun, Perform, Decide;
    d.Elsewhere(Pass(k));
    plan, projected := PlanStateOf(d.w, r.planId), op in d.w.ops;
    ok := Durable(d, k, op, Nothing, true, true, "");
  }

  /** `markAmbiguous` */
  method MarkAmbiguous(d: Daemon, k: PassId, op: OpId, r: Receipt, code: Failure) returns (f: Filing)
    requires d.Valid() && At(d.passes, k, op, r, WriteAmbiguous(code))
    modifies d
    ensures d.Valid() && (f.Flagged? || f.Gone?) && Files(old(d.passes)[k], op, f, d.passes, k)
    ensures f.Gone? ==> Quit(d, k, old(d.passes)[k].listed)
  {
    hide IsRun, Perform;
    d.Elsewhere(Pass(k));
    var ok := Durable(d, k, op, PutReceipt(Uncertain(r, code)), true, true, "");
    f := if ok then Flagged else Gone;
  }

  /** `writeManagedTargets`, one target after the other. */
  method WriteManagedTargets(d: Daemon, k: PassId, op: OpId, r: Receipt) returns (ok: bool)
    requires d.Valid() && At(d.passes, k, op, r, RecManage) && d.passes[k].done == {} && Distinct(r.targets)
    modifies d
    ensures d.Valid()
    ensures if ok then At(d.passes, k, op, r, RecWriteCompleted) && Same(old(d.passes)[k], d.passes, k) else Quit(d, k, old(d.passes)[k].listed)
  {
    hide IsRun, Perform;
    for j := 0 to |r.targets|
      invariant d.Valid() && At(d.passes, k, op, r, RecManage) && Same(old(d.passes)[k], d.passes, k)
      invariant d.passes[k].done == Elements(r.targets[..j])
    {
      d.Elsewhere(Pass(k));
      NextTarget(r.targets, j);
      var p := r.targets[j];
      ok := Durable(d, k, op, PutManaged(p, Look(r.committed, p)), true, false, p);
      if !ok {
        return;
      }
    }
    assert r.targets[..|r.targets|] == r.targets;
    ok := EndManaging(d, k, op, r);
  }

  method EndManaging(d: Daemon, k: PassId, op: OpId, ghost r: Receipt) returns (ok: bool)
    requires d.Valid() && At(d.passes, k, op, r, RecManage) && d.passes[k].done >= Elements(r.targets)
    modifies d
    ensures d.Valid()
    ensures if ok then At(d.passes, k, op, r, RecWriteCompleted) && Same(old(d.passes)[k], d.passes, k) else Quit(d, k, old(d.passes)[k].listed)
  {
    hide IsRun, Perform;
    ok := Durable(d, k, op, Nothing, true, true, "");
  }

  // ---------------------------------------------------------------- one receipt

  /** The `try` around an interrupted operation: whatever it throws flags the receipt. */
  method FailInterrupted(d: Daemon, k: PassId, op: OpId, r: Receipt, transition: bool) returns (f: Filing)
    requires d.Valid() && At(d.passes, k, op, r, if transition then FailCas else RecWriteFailed)
    modifies d
    ensures d.Valid() && Files(old(d.passes)[k], op, f, d.passes, k)
    ensures f.Gone? ==> Quit(d, k, old(d.passes)[k].listed)
  {
    hide IsRun, Perform;
    var ok := true;
    if transition {
      ok := FailPlan(d, k, op, r);
    }
    if ok {
      ok := WriteInterrupted(d, k, op, r);
      if ok {
        return Reconciled;
      }
    }
    f := MarkAmbiguous(d, k, op, r, ProjectionInconsistent);
  }

  method FailPlan(d: Daemon, k: PassId, op: OpId, r: Receipt) returns (ok: bool)
    requires d.Valid() && At(d.passes, k, op, r, FailCas)
    modifies d
    ensures d.Valid() && Same(old(d.passes)[k], d.passes, k)
    ensures At(d.passes, k, op, r, if ok then RecWriteFailed else WriteAmbiguous(ProjectionInconsistent))
  {
    hide IsRun, Perform;
    d.Elsewhere(Pass(k));
    ok := Durable(d, k, op, Transition(r.planId, Applying, PlanFailed), PlanIs(d.w, r.planId, Applying), true, "");
  }

  method WriteInterrupted(d: Daemon, k: PassId, op: OpId, r: Receipt) returns (ok: bool)
    requires d.Valid() && At(d.passes, k, op, r, RecWriteFailed)
    modifies d
    ensures d.Valid()
    ensures ok ==> Files(old(d.passes)[k], op, Reconciled, d.passes, k)
    ensures !ok ==> At(d.passes, k, op, r, WriteAmbiguous(ProjectionInconsistent)) && Same(old(d.passes)[k], d.passes, k)
  {
    hide IsRun, Perform;
    d.Elsewhere(Pass(k));
    ok := Durable(d, k, op, PutReceipt(r.(state := Failed, failure := InterruptedBeforeCommit)), true, true, "");
  }

  /** The body of the loop in `reconcile`. */
  method ReconcileOne(d: Daemon, k: PassId, op: OpId, r: Receipt) returns (f: Filing)
    requires d.Valid() && At(d.passes, k, op, r, Observe) && Fresh(d.passes[k]) && Distinct(r.targets)
    modifies d
    ensures d.Valid() && Files(old(d.passes)[k], op, f, d.passes, k)
    ensures f.Gone? ==> Quit(d, k, old(d.passes)[k].listed)
  {
    hide IsRun;
    var ok, observed := ObserveTargets(d, k, op, r);
    if !ok {
      return Gone;
    }
    var plan, projected;
    ok, plan, projected := ReadRedis(d, k, op, r, observed);
    if !ok {
      return Gone;
    }
    if plan.None? {
      f := MarkAmbiguous(d, k, op, r, ProjectionInconsistent);
      return;
    }
    var untouched := forall p :: p in r.targets ==> Look(r.expected, p) == Look(observed, p);
    if (r.state == Prepared || r.state == Snapshotted || r.state == Writing || r.failure == TransitionUncertain) && untouched {
      if projected || (plan.value != Applying && plan.value != Approved) {
        f := MarkAmbiguous(d, k, op, r, ProjectionInconsistent);
        return;
      }
      f := FailInterrupted(d, k, op, r, plan.value == Applying);
      return;
    }
    f := FinishCommitted(d, k, op, r, observed, plan.value, projected);
  }

  /** The decision once the receipt is not to be failed. */
  function AfterMatch(r: Receipt, observed: HashMap, plan: PlanState, projected: bool): Decision {
    if !Matches(r.committed, observed) then Ambiguous(AmbiguousFilesystem)
    else if plan == Applying && !projected then FinishPlan
    else if plan != Applied || !projected then Ambiguous(ProjectionInconsistent)
    else FinishReceipt
  }

  /** The files are as recorded, or a person must look: the second half of the loop body. */
  method FinishCommitted(d: Daemon, k: PassId, op: OpId, r: Receipt, observed: HashMap, plan: PlanState, projected: bool)
    returns (f: Filing)
    requires d.Valid() && Distinct(r.targets)
    requires At(d.passes, k, op, r, DecisionPc(AfterMatch(r, observed, plan, projected))) && d.passes[k].done == {}
    modifies d
    ensures d.Valid() && Files(old(d.passes)[k], op, f, d.passes, k)
    ensures f.Gone? ==> Quit(d, k, old(d.passes)[k].listed)
  {
    hide IsRun;
    if !Matches(r.committed, observed) {
      f := MarkAmbiguous(d, k, op, r, AmbiguousFilesystem);
      return;
    }
    if plan == Applying && !projected {
      var ok := CompletePlan(d, k, op, r);
      if !ok {
        return Gone;
      }
    } else if plan != Applied || !projected {
      f := MarkAmbiguous(d, k, op, r, ProjectionInconsistent);
      return;
    }
    f := RecordCompleted(d, k, op, r);
  }

  method CompletePlan(d: Daemon, k: PassId, op: OpId, r: Receipt) returns (ok: bool)
    requires d.Valid() && At(d.passes, k, op, r, CompleteCas) && d.passes[k].done == {}
    modifies d
    ensures d.Valid()
    ensures ok ==> At(d.passes, k, op, r, RecManage) && d.passes[k].done == {} && Same(old(d.passes)[k], d.passes, k)
    ensures !ok ==> Quit(d, k, old(d.passes)[k].listed)
  {
    hide IsRun, Perform;
    d.Elsewhere(Pass(k));
    ok := Durable(d, k, op, Effect.CompletePlan(r.planId), CanComplete(d.w, r.planId, op), true, "");
  }

  /** The managed targets, then the completed receipt. */
  method RecordCompleted(d: Daemon, k: PassId, op: OpId, r: Receipt) returns (f: Filing)
    requires d.Valid() && At(d.passes, k, op, r, RecManage) && d.passes[k].done == {} && Distinct(r.targets)
    modifies d
    ensures d.Valid() && Files(old(d.passes)[k], op, f, d.passes, k)
    ensures f.Gone? ==> Quit(d, k, old(d.passes)[k].listed)
  {
    hide IsRun, Perform;
    var ok := WriteManagedTargets(d, k, op, r);
    if !ok {
      return Gone;
    }
    d.Elsewhere(Pass(k));
    ok := Durable(d, k, op, PutReceipt(r.(state := Completed, failure := NoFailure)), true, true, "");
    f := if ok then Reconciled else Gone;
  }

  // ---------------------------------------------------------------- the pass

  /** The receipts that `reconcile` takes up, in the order in which they were listed. */
  method FilterPending(receipts: map<OpId, Receipt>, listing: seq<OpId>) returns (order: seq<OpId>)
    requires Distinct(listing) && Elements(listing) == receipts.Keys
    ensures Distinct(order)
    ensures forall op :: op in order <==>
              && op in receipts
              && receipts[op].state in
                   {Prepared, Snapshotted, Writing, FilesCommitted, RedisPending, ReconciliationRequired}
  {
    order := [];
    for i := 0 to |listing|
      invariant Distinct(order) && forall op :: op in order <==> op in listing[..i] && Taken(receipts, op)
    {
      assert listing[..i + 1] == listing[..i] + [listing[i]];
      assert listing[i] in Elements(listing) && listing[i] !in listing[..i];
      if Pending(receipts[listing[i]].state) {
        order := order + [listing[i]];
      }
    }
    assert listing[..|listing|] == listing;
    assert forall op :: op in listing <==> op in Elements(listing);
  }

  predicate Taken(receipts: map<OpId, Receipt>, op: OpId) {
    && op in receipts
    && receipts[op].state in {Prepared, Snapshotted, Writing, FilesCommitted, RedisPending, ReconciliationRequired}
  }

  /**
    `reconcile`, over all receipts in the order in which they are listed, beside any operations and
    other passes. It takes up those in one of six states. Success means that each of them has been
    settled; review, that exactly the reported ones have been left for it. It throws only where the
    pass's own last step did.
   */
  method Reconcile(d: Daemon, k: PassId, listing: seq<OpId>) returns (o: Outcome, ghost order: seq<OpId>)
    requires d.Valid() && k !in d.passes && Distinct(listing) && Elements(listing) == d.w.receipts.Keys
    modifies d
    ensures d.Valid() && k !in d.passes
    ensures forall op :: op in order <==>
              && op in old(d.w.receipts)
              && old(d.w.receipts)[op].state in
                   {Prepared, Snapshotted, Writing, FilesCommitted, RedisPending, ReconciliationRequired}
    ensures o.Success? ==> Reported(d.run, d.acts, k, order, []) && Elements(o.reconciled) == Elements(order)
    ensures o.NeedsReview? ==> o.ambiguous != [] && Reported(d.run, d.acts, k, order, o.ambiguous)
    ensures o.Threw? ==>
              && d.acts != [] && |d.run| == |d.acts| + 1
              && var s, a := d.run[|d.acts| - 1], d.acts[|d.acts| - 1];
                 k in s.passes && s.passes[k].listed == order && a.RecThrow? && a.pass == k
  {
    var pending := FilterPending(d.w.receipts, listing);
    order := pending;
    ListedPending(d.w, order);
    o := ReconcileListed(d, k, pending);
  }

  lemma ListedPending(w: World, order: seq<OpId>)
    requires Distinct(order)
    requires forall op :: op in order <==>
               && op in w.receipts
               && w.receipts[op].state in
                    {Prepared, Snapshotted, Writing, FilesCommitted, RedisPending, ReconciliationRequired}
    ensures ListsPending(w, order)
  {
  }

  /** The loop over the pending receipts. */
  method ReconcileListed(d: Daemon, k: PassId, order: seq<OpId>) returns (o: Outcome)
    requires d.Valid() && k !in d.passes && ListsPending(d.w, order)
    modifies d
    ensures d.Valid() && k !in d.passes
    ensures o.Success? ==> Reported(d.run, d.acts, k, order, []) && Elements(o.reconciled) == Elements(order)
    ensures o.NeedsReview? ==> o.ambiguous != [] && Reported(d.run, d.acts, k, order, o.ambiguous)
    ensures o.Threw? ==> LastThrew(d.run, d.acts, k, order)
  {
    hide IsRun, Next, Between, ListsPending, Reported, Files, LastThrew;
    var receipts := d.w.receipts;
    ghost var was := d.Now();
    d.passes := d.passes[k := FirstPass(order, receipts)];
    PassStarts(was, k, order);
    d.Log(StartReconcile(k, order));
    var reconciled, ambiguous := [], [];
    FirstBetween(d.passes, k, order, receipts);
    for i := 0 to |order|
      invariant d.Valid() && Between(d.passes, k, order, receipts, i, reconciled, ambiguous)
    {
      var op := order[i];
      HeadListed(d.run, d.acts, k, op, order, receipts, i, reconciled, ambiguous);
      ghost var was1, done, flagged := d.passes[k], reconciled, ambiguous;
      var f := ReconcileOne(d, k, op, receipts[op]);
      if f.Gone? {
        return Threw;
      }
      if f.Reconciled? {
        reconciled := reconciled + [op];
      } else {
        ambiguous := ambiguous + [op];
      }
      NextBetween(was1, order, receipts, i, f, d.passes, k, done, flagged);
    }
    o := Finish(d, k, order, receipts, reconciled, ambiguous);
  }

  method Finish(d: Daemon, k: PassId, ghost order: seq<OpId>, ghost receipts: map<OpId, Receipt>, reconciled: seq<OpId>,
                ambiguous: seq<OpId>)
    returns (o: Outcome)
    requires d.Valid() && Between(d.passes, k, order, receipts, |order|, reconciled, ambiguous)
    modifies d
    ensures d.Valid() && k !in d.passes && Reported(d.run, d.acts, k, order, ambiguous)
    ensures o == if ambiguous != [] then NeedsReview(ambiguous) else Success(reconciled)
    ensures o.Success? ==> Elements(reconciled) == Elements(order)
  {
    hide IsRun, Next, Inv;
    ghost var run0, acts0, was := d.run, d.acts, d.Now();
    LastInv(run0, acts0);
    d.passes := d.passes - {k};
    PassEnds(was, k);
    d.Log(FinishReconcile(k));
    EndsReported(run0, acts0, d.run, d.acts, k);
    o := if ambiguous != [] then NeedsReview(ambiguous) else Success(reconciled);
  }

  lemma PassStarts(s: State, k: PassId, order: seq<OpId>)
    requires k !in s.passes && ListsPending(s.w, order)
    ensures Next(s, StartReconcile(k, order)) == Some(s.(passes := s.passes[k := FirstPass(order, s.w.receipts)]))
  {
  }

  lemma PassEnds(s: State, k: PassId)
    requires k in s.passes && s.passes[k].todo == []
    ensures Next(s, FinishReconcile(k)) == Some(s.(passes := s.passes - {k}))
  {
  }

  /** What a pass with nothing left to do knows, once it has ended. */
  lemma EndsReported(run0: seq<State>, acts0: seq<Action>, run: seq<State>, acts: seq<Action>, k: PassId)
    requires IsRun(run0, acts0) && IsRun(run, acts) && Inv(run0[|acts0|])
    requires acts == acts0 + [FinishReconcile(k)] && |run| == |run0| + 1 && run[..|run0|] == run0
    requires k in run0[|acts0|].passes && run0[|acts0|].passes[k].todo == []
    ensures var m := run0[|acts0|].passes[k];
            && Reported(run, acts, k, m.listed, m.ambiguous)
            && (m.ambiguous == [] ==> Elements(m.reconciled) == Elements(m.listed))
  {
    hide Next, Init, StepAt;
    var i := |acts0|;
    var m := run0[i].passes[k];
    assert run[i] == run0[i] && acts[i] == FinishReconcile(k);
    ListedMeans(run[i], k);
    forall op | op in m.listed
      ensures op in run[i + 1].w.receipts
        && (op in m.lost
            || if op in m.ambiguous then run[i + 1].w.receipts[op].state == ReconciliationRequired
               else Resolved(run[i + 1].w.receipts[op].state))
    {
      FinishedPassFilesEverything(run, acts, i, op);
    }
  }

  lemma ListedMeans(s: State, k: PassId)
    requires Inv(s) && k in s.passes && s.passes[k].todo == []
    ensures var m := s.passes[k];
            forall op :: op in m.listed <==> op in m.reconciled || op in m.ambiguous
  {
    assert PassInv(s.w, s.specs, s.passes[k]);
  }

  lemma FirstBetween(passes: map<PassId, Rec>, k: PassId, order: seq<OpId>, receipts: map<OpId, Receipt>)
    requires k in passes && passes[k] == FirstPass(order, receipts)
    ensures Between(passes, k, order, receipts, 0, [], [])
  {
  }

  lemma NextBetween(m: Rec, order: seq<OpId>, receipts: map<OpId, Receipt>, i: nat, f: Filing, after: map<PassId, Rec>,
                    k: PassId, reconciled: seq<OpId>, ambiguous: seq<OpId>)
    requires i < |order| && m.todo != [] && Files(m, order[i], f, after, k) && !f.Gone?
    requires Between(map[k := m], k, order, receipts, i, reconciled, ambiguous)
    ensures Between(after, k, order, receipts, i + 1, if f.Reconciled? then reconciled + [order[i]] else reconciled,
                    if f.Flagged? then ambiguous + [order[i]] else ambiguous)
  {
  }

  lemma HeadListed(run: seq<State>, acts: seq<Action>, k: PassId, op: OpId, order: seq<OpId>, receipts: map<OpId, Receipt>,
                   i: nat, reconciled: seq<OpId>, ambiguous: seq<OpId>)
    requires IsRun(run, acts) && i < |order| && op == order[i]
    requires Between(run[|acts|].passes, k, order, receipts, i, reconciled, ambiguous)
    ensures op in receipts && At(run[|acts|].passes, k, op, receipts[op], Observe) && Distinct(receipts[op].targets)
    ensures Fresh(run[|acts|].passes[k]) && run[|acts|].passes[k].listed == order && run[|acts|].passes[k].todo != []
    ensures Between(map[k := run[|acts|].passes[k]], k, order, receipts, i, reconciled, ambiguous)
  {
    hide Next;
    LastInv(run, acts);
    var s := run[|acts|];
    var m := s.passes[k];
    assert m.todo[0] == op && op in m.todo;
    assert PassInv(s.w, s.specs, m);
    assert Listed(s.w, s.specs, m, op);
    assert WfSpec(s.specs[m.copies[op].planId]);
  }

  lemma NextTarget(targets: seq<Path>, k: nat)
    requires Distinct(targets) && k < |targets|
    ensures targets[k] in targets && !(Elements(targets[..k]) >= Elements(targets))
    ensures Elements(targets[..k + 1]) == Elements(targets[..k]) + {targets[k]}
  {
    assert targets[..k + 1] == targets[..k] + [targets[k]];
    assert targets[k] in Elements(targets) && targets[k] !in Elements(targets[..k]);
  }
}
