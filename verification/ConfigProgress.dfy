/**
  Nothing stands in the way of an operation or a pass that nobody disturbs: an approved plan whose
  files are as expected is applied to the end, and a pass comes to the end of its list.
 */
module ConfigProgress {
  import opened Prelude
  import opened ConfigPolicy
  import opened ConfigProtocol
  import opened ConfigSafety
  import opened ConfigRecovery

  /** Where these actions lead. */
  function Exec(s: State, acts: seq<Action>): Option<State>
    decreases acts
  {
    if acts == [] then Some(s)
    else
      match Next(s, acts[0])
      case None => None
      case Some(s') => Exec(s', acts[1..])
  }

  // ---------------------------------------------------------------- an operation

  /** The operation has met no failure, and nobody is in its way. */
  ghost predicate Smooth(s: State, op: OpId) {
    && op in s.apply && s.apply[op].planId in s.specs
    && SmoothThread(s.w, s.specs[s.apply[op].planId], op, s.apply[op])
  }

  ghost predicate SmoothThread(w: World, spec: Spec, op: OpId, t: Thread) {
    && t.planId in w.plans && !t.meddled && (op in w.ops ==> Projected(t.pc))
    && (Waiting(t.pc) || InEngine(t.pc))
    && (t.pc.WritePrepared? || t.pc.Cas? ==> PlanIs(w, t.planId, Approved))
    && (Waiting(t.pc) ==> PreconditionsHold(w.files, spec))
    && (InEngine(t.pc) ==> t.edited == {})
    && t.remanaged == {}
  }

  /** Before the preconditions have been checked. */
  predicate Waiting(pc: Pc) {
    pc.WritePrepared? || pc.Cas? || pc.Check?
  }

  /** How many steps are left, at most. */
  function StepsLeft(spec: Spec, t: Thread): nat {
    var n := |spec.targets|;
    var renames := if t.count <= n then 2 * (n - t.count) else 0;
    match t.pc
    case WritePrepared => 3 * n + 14
    case Cas => 3 * n + 13
    case Check => 3 * n + 12
    case WriteSnapshotted => 3 * n + 11
    case WriteWriting => 3 * n + 10
    case Rename => n + 8 + renames + 1
    case Progress => n + 8 + renames + 2
    case WriteFilesCommitted => n + 9
    case Project => n + 7
    case Recommit => n + 6
    case Manage => 5 + |Elements(spec.targets) - t.done|
    case Complete => 4
    case WriteCompleted => 3
    case OnApplied => 2
    case _ => 0
  }

  /** The target whose managed record is written next. */
  ghost function NextPick(spec: Spec, t: Thread): Path {
    if t.pc.Manage? && exists p :: p in spec.targets && p !in t.done then var p :| p in spec.targets && p !in t.done; p else ""
  }

  /** The operation goes on smoothly, and is a step nearer to its end. */
  ghost predicate GoesOn(w: World, spec: Spec, op: OpId, t: Thread, r: (Effect, Option<Thread>)) {
    && r.1.Some? && r.1.value.planId == t.planId
    && SmoothThread(Perform(w, op, r.0), spec, op, r.1.value) && StepsLeft(spec, r.1.value) < StepsLeft(spec, t)
  }

  lemma WaitingGoesOn(w: World, specs: map<PlanId, Spec>, op: OpId, t: Thread)
    requires ThreadInv(w, specs, op, t) && SmoothThread(w, specs[t.planId], op, t) && Waiting(t.pc)
    ensures GoesOn(w, specs[t.planId], op, t, AdvanceThread(w, specs[t.planId], op, t, ""))
  {
    hide FilesAt, ManagedBy, Elements;
  }

  lemma EngineGoesOn(w: World, specs: map<PlanId, Spec>, op: OpId, t: Thread)
    requires ThreadInv(w, specs, op, t) && SmoothThread(w, specs[t.planId], op, t) && WfSpec(specs[t.planId])
    requires InEngine(t.pc) && !Committed(t.pc)
    ensures GoesOn(w, specs[t.planId], op, t, AdvanceThread(w, specs[t.planId], op, t, ""))
  {
    hide FilesAt, ManagedBy, Elements, PreconditionsHold;
  }

  lemma CommitLeft(spec: Spec, t: Thread)
    ensures StepsLeft(spec, t.(pc := Recommit)) == |spec.targets| + 6
    ensures t.pc.Project? ==> StepsLeft(spec, t) == |spec.targets| + 7
    ensures t.pc.Recommit? ==> StepsLeft(spec, t) == |spec.targets| + 6
  {
  }

  lemma CommitGoesOn(w: World, specs: map<PlanId, Spec>, op: OpId, t: Thread)
    requires ThreadInv(w, specs, op, t) && SmoothThread(w, specs[t.planId], op, t) && (t.pc.Project? || t.pc.Recommit?)
    ensures GoesOn(w, specs[t.planId], op, t, AdvanceThread(w, specs[t.planId], op, t, ""))
  {
    hide StepsLeft;
    if t.pc.Recommit? {
      ManageFirst(specs[t.planId], t);
    }
    CommitLeft(specs[t.planId], t);
    hide FilesAt, ManagedBy, Elements, PreconditionsHold, ThreadInv, CanComplete;
  }

  lemma CompletionGoesOn(w: World, specs: map<PlanId, Spec>, op: OpId, t: Thread)
    requires ThreadInv(w, specs, op, t) && SmoothThread(w, specs[t.planId], op, t) && (t.pc.Complete? || t.pc.WriteCompleted?)
    ensures GoesOn(w, specs[t.planId], op, t, AdvanceThread(w, specs[t.planId], op, t, ""))
  {
    assert t.pc.Complete? ==> CanComplete(w, t.planId, op);
    hide FilesAt, ManagedBy, Elements, PreconditionsHold, ThreadInv;
  }

  lemma ManageGoesOn(w: World, specs: map<PlanId, Spec>, op: OpId, t: Thread)
    requires t.planId in specs && SmoothThread(w, specs[t.planId], op, t) && t.pc.Manage?
    ensures GoesOn(w, specs[t.planId], op, t, AdvanceThread(w, specs[t.planId], op, t, NextPick(specs[t.planId], t)))
  {
    ManageStep(w, specs[t.planId], op, t);
    hide AdvanceThread, PreconditionsHold;
  }

  /** One more step, seen from the operation. */
  lemma ThreadGoesOn(w: World, specs: map<PlanId, Spec>, op: OpId, t: Thread)
    requires ThreadInv(w, specs, op, t) && SmoothThread(w, specs[t.planId], op, t) && WfSpec(specs[t.planId])
    requires !t.pc.OnApplied?
    ensures GoesOn(w, specs[t.planId], op, t, AdvanceThread(w, specs[t.planId], op, t, NextPick(specs[t.planId], t)))
  {
    if t.pc.Manage? {
      hide GoesOn;
      ManageGoesOn(w, specs, op, t);
    } else {
      assert NextPick(specs[t.planId], t) == "";
      if Waiting(t.pc) {
        hide GoesOn;
        WaitingGoesOn(w, specs, op, t);
      } else if t.pc.Project? || t.pc.Recommit? {
        hide GoesOn;
        CommitGoesOn(w, specs, op, t);
      } else if Committed(t.pc) {
        hide GoesOn;
        CompletionGoesOn(w, specs, op, t);
      } else {
        hide GoesOn;
        EngineGoesOn(w, specs, op, t);
      }
    }
  }

  lemma ManageFirst(spec: Spec, t: Thread)
    requires t.pc.Recommit?
    ensures StepsLeft(spec, t.(pc := Manage)) <= |spec.targets| + 5
  {
    UniqueCount(spec.targets);
    SubsetSize(Elements(spec.targets) - t.done, Elements(spec.targets));
  }

  lemma ManageStep(w: World, spec: Spec, op: OpId, t: Thread)
    requires t.pc.Manage?
    ensures var r := AdvanceThread(w, spec, op, t, NextPick(spec, t));
            && r.1.Some? && StepsLeft(spec, r.1.value) < StepsLeft(spec, t)
            && r.1.value == t.(pc := r.1.value.pc, done := r.1.value.done, remanaged := r.1.value.remanaged)
            && r.1.value.remanaged <= t.remanaged && (r.1.value.pc.Manage? || r.1.value.pc.Complete?)
            && !r.0.CompletePlan? && !r.0.Transition?
  {
    var r := AdvanceThread(w, spec, op, t, NextPick(spec, t));
    if t.done >= Elements(spec.targets) {
      assert r.1.value.pc == Complete;
    } else {
      SomeLeftToManage(spec, t);
      var p := NextPick(spec, t);
      assert Elements(spec.targets) - (t.done + {p}) == Elements(spec.targets) - t.done - {p};
      assert p in Elements(spec.targets) - t.done;
    }
  }

  lemma SomeLeftToManage(spec: Spec, t: Thread)
    requires !(t.done >= Elements(spec.targets))
    ensures exists p :: p in spec.targets && p !in t.done
  {
    var p :| p in Elements(spec.targets) && p !in t.done;
    assert p in spec.targets;
  }

  lemma SmoothStep(s: State, op: OpId) returns (a: Action)
    requires Inv(s) && Smooth(s, op) && !s.apply[op].pc.OnApplied?
    ensures a.Advance? && a.op == op && Next(s, a).Some?
    ensures var s' := Next(s, a).value;
            && Inv(s') && Smooth(s', op) && s'.specs == s.specs && s'.apply[op].planId == s.apply[op].planId
            && StepsLeft(s.specs[s.apply[op].planId], s'.apply[op]) < StepsLeft(s.specs[s.apply[op].planId], s.apply[op])
  {
    hide Next, AdvanceThread, Perform, SmoothThread;
    var t := s.apply[op];
    a := Advance(op, NextPick(s.specs[t.planId], t));
    KnownThread(s, op);
    AdvanceKeeps(s, op, a.pick);
    hide Inv, ThreadInv, WfSpec;
    ThreadMaps(s, a);
    ThreadGoesOn(s.w, s.specs, op, t);
  }

  lemma {:induction false} SmoothToEnd(s: State, op: OpId) returns (acts: seq<Action>)
    requires Inv(s) && Smooth(s, op)
    ensures Exec(s, acts).Some?
    ensures var s' := Exec(s, acts).value;
            && Inv(s') && Smooth(s', op) && s'.apply[op].pc.OnApplied? && s'.specs == s.specs
            && s'.apply[op].planId == s.apply[op].planId
    ensures forall a :: a in acts ==> a.Advance? && a.op == op
    decreases if op in s.apply && s.apply[op].planId in s.specs then StepsLeft(s.specs[s.apply[op].planId], s.apply[op]) else 0
  {
    hide Next, Inv, SmoothThread;
    if s.apply[op].pc.OnApplied? {
      acts := [];
    } else {
      var a := SmoothStep(s, op);
      var rest := SmoothToEnd(Next(s, a).value, op);
      acts := [a] + rest;
      assert acts[1..] == rest;
    }
  }

  /** What an operation that is about to announce its completion has achieved. */
  lemma Achieved(s: State, op: OpId)
    requires Inv(s) && Smooth(s, op) && s.apply[op].pc.OnApplied?
    ensures var q := s.apply[op].planId;
            var spec := s.specs[q];
            && op in s.w.receipts && s.w.receipts[op].state == Completed && s.w.receipts[op].committed == spec.intended
            && s.w.receipts[op].planId == q && op in s.w.ops && s.w.plans[q] == Plan(Applied, Some(op))
            && (forall p :: p in spec.targets ==> Observed(s.w.files, p) == Look(spec.intended, p))
            && (forall p :: p in spec.targets ==> p in s.w.managed && s.w.managed[p] == Managed(op, Look(spec.intended, p)))
  {
    KnownThread(s, op);
    OpsNamePlans(s, op);
    AllManaged(s.w, s.specs, op, s.apply[op]);
    hide Inv;
  }

  lemma AllManaged(w: World, specs: map<PlanId, Spec>, op: OpId, t: Thread)
    requires ThreadInv(w, specs, op, t) && t.pc.OnApplied? && t.edited == {} && t.remanaged == {} && !t.meddled
    ensures var spec := specs[t.planId];
            && op in w.receipts && w.receipts[op].state == Completed && w.receipts[op].committed == spec.intended
            && w.receipts[op].planId == t.planId && op in w.ops
            && (forall p :: p in spec.targets ==> Observed(w.files, p) == Look(spec.intended, p))
            && (forall p :: p in spec.targets ==> p in w.managed && w.managed[p] == Managed(op, Look(spec.intended, p)))
  {
    var spec := specs[t.planId];
    forall p | p in spec.targets
      ensures Observed(w.files, p) == Look(spec.intended, p)
      ensures p in w.managed && w.managed[p] == Managed(op, Look(spec.intended, p))
    {
      var k :| 0 <= k < |spec.targets| && spec.targets[k] == p;
      assert p in Elements(spec.targets);
    }
  }

  /**
    An operation that has just begun, on an approved plan whose targets are at their preconditions, and
    that nobody disturbs, goes all the way: the receipt completed, the plan applied by it, every
    target as intended and recorded as managed.
   */
  lemma UndisturbedApply(s: State, op: OpId) returns (acts: seq<Action>)
    requires Inv(s) && op in s.apply && s.apply[op].planId in s.specs
    requires s.apply[op] == FirstThread(s.apply[op].planId, s.specs[s.apply[op].planId])
    requires PlanIs(s.w, s.apply[op].planId, Approved)
    requires forall p :: p in s.specs[s.apply[op].planId].targets ==>
               Observed(s.w.files, p) == Look(s.specs[s.apply[op].planId].pre, p)
    ensures Exec(s, acts).Some? && forall a :: a in acts ==> a.Advance? && a.op == op
    ensures var s', q := Exec(s, acts).value, s.apply[op].planId;
            var spec := s.specs[q];
            && op !in s'.apply
            && op in s'.w.receipts && s'.w.receipts[op].state == Completed && s'.w.receipts[op].committed == spec.intended
            && op in s'.w.ops && q in s'.w.plans && s'.w.plans[q] == Plan(Applied, Some(op))
            && (forall p :: p in spec.targets ==> Observed(s'.w.files, p) == Look(spec.intended, p))
            && (forall p :: p in spec.targets ==> p in s'.w.managed && s'.w.managed[p] == Managed(op, Look(spec.intended, p)))
  {
    SmoothAtFirst(s, op);
    hide Inv, Smooth, Next, FirstThread, Exec, PlanIs;
    var most := SmoothToEnd(s, op);
    var s1 := Exec(s, most).value;
    Achieved(s1, op);
    var last := Advance(op, "");
    AdvanceKeeps(s1, op, "");
    Ends(s1, op);
    ThenOne(s, most, last);
    acts := most + [last];
  }

  lemma SmoothAtFirst(s: State, op: OpId)
    requires Inv(s) && op in s.apply && s.apply[op].planId in s.specs
    requires s.apply[op] == FirstThread(s.apply[op].planId, s.specs[s.apply[op].planId])
    requires PlanIs(s.w, s.apply[op].planId, Approved)
    requires forall p :: p in s.specs[s.apply[op].planId].targets ==>
               Observed(s.w.files, p) == Look(s.specs[s.apply[op].planId].pre, p)
    ensures Smooth(s, op)
  {
    KnownThread(s, op);
  }

  lemma Ends(s: State, op: OpId)
    requires op in s.apply && s.apply[op].planId in s.specs && s.apply[op].pc.OnApplied?
    ensures Next(s, Advance(op, "")).Some?
    ensures Next(s, Advance(op, "")).value.w == s.w && op !in Next(s, Advance(op, "")).value.apply
  {
  }

  lemma {:induction false} ThenOne(s: State, acts: seq<Action>, a: Action)
    requires Exec(s, acts).Some?
    ensures Exec(s, acts + [a]) == Next(Exec(s, acts).value, a)
    decreases acts
  {
    hide Next;
    if acts == [] {
      assert acts + [a] == [a] && [a][1..] == [];
      if Next(s, a).Some? {
        assert Exec(Next(s, a).value, []) == Next(s, a);
      }
    } else {
      assert (acts + [a])[1..] == acts[1..] + [a];
      ThenOne(Next(s, acts[0]).value, acts[1..], a);
    }
  }

  // ---------------------------------------------------------------- a pass

  /** The pass has met no failure at its present receipt. */
  ghost predicate SmoothPass(s: State, k: PassId) {
    && k in s.passes
    && (s.passes[k].todo != [] && s.passes[k].pc.CompleteCas? && s.passes[k].todo[0] in s.passes[k].copies ==>
          CanComplete(s.w, s.passes[k].copies[s.passes[k].todo[0]].planId, s.passes[k].todo[0]))
  }

  /** How many steps are left for the present receipt, at most. */
  function HeadLeft(m: Rec): nat {
    if m.todo == [] || m.todo[0] !in m.copies then 0
    else
      var targets := Elements(m.copies[m.todo[0]].targets);
      match m.pc
      case Observe => 20 + |targets| + |targets - m.obs.Keys|
      case ReadPlan => 19 + |targets|
      case CompleteCas => 18 + |targets|
      case RecManage => 17 + |targets - m.done|
      case FailCas => 16
      case RecWriteFailed => 15
      case RecWriteCompleted => 15
      case WriteAmbiguous(_) => 14
  }

  ghost function PassPick(m: Rec): Path
    requires m.todo != [] && m.todo[0] in m.copies
  {
    var targets := m.copies[m.todo[0]].targets;
    if m.pc.Observe? && exists p :: p in targets && p !in m.obs then var p :| p in targets && p !in m.obs; p
    else if m.pc.RecManage? && exists p :: p in targets && p !in m.done then var p :| p in targets && p !in m.done; p
    else ""
  }

  /** The pass comes nearer to the end of its receipt, or goes to the next one. */
  ghost predicate HeadGoesOn(w: World, m: Rec, r: (Effect, Option<Rec>))
    requires m.todo != [] && m.todo[0] in m.copies
  {
    && r.1.Some? && r.1.value.copies == m.copies
    && ((r.1.value.todo == m.todo && HeadLeft(r.1.value) < HeadLeft(m))
        || (r.1.value.todo == m.todo[1..] && r.1.value.pc.Observe?))
    && (r.1.value.pc.CompleteCas? ==>
          r.1.value.todo == m.todo && r.0.Nothing? && CanComplete(w, m.copies[m.todo[0]].planId, m.todo[0]))
  }

  lemma ObservingGoesOn(w: World, m: Rec)
    requires m.todo != [] && m.todo[0] in m.copies && m.pc.Observe?
    ensures HeadGoesOn(w, m, AdvanceRec(w, m, PassPick(m)))
  {
    var targets := m.copies[m.todo[0]].targets;
    if !(m.obs.Keys >= Elements(targets)) {
      LeftIn(targets, m.obs.Keys);
      var p := PassPick(m);
      assert m.obs[p := Observed(w.files, p)].Keys == m.obs.Keys + {p};
      FewerLeft(Elements(targets), m.obs.Keys, p);
    }
  }

  lemma ManagingGoesOn(w: World, m: Rec)
    requires m.todo != [] && m.todo[0] in m.copies && m.pc.RecManage?
    ensures HeadGoesOn(w, m, AdvanceRec(w, m, PassPick(m)))
  {
    hide AdvanceRec, PassPick, Elements, HeadLeft, CanComplete;
    var targets, pick := m.copies[m.todo[0]].targets, PassPick(m);
    ManageNext(w, m, pick);
    ManageLeft(m);
    if m.done >= Elements(targets) {
      assert HeadLeft(m.(pc := RecWriteCompleted)) == 15 by { WriteLeft(m); }
    } else {
      PicksLeft(m);
      var m' := m.(done := m.done + {pick}, remanaged := m.remanaged - {pick});
      ManageLeft(m');
      FewerLeft(Elements(targets), m.done, pick);
    }
  }

  lemma ManageLeft(m: Rec)
    requires m.todo != [] && m.todo[0] in m.copies && m.pc.RecManage?
    ensures HeadLeft(m) == 17 + |Elements(m.copies[m.todo[0]].targets) - m.done|
  {
  }

  lemma WriteLeft(m: Rec)
    ensures HeadLeft(m.(pc := RecWriteCompleted)) <= 15
    ensures m.todo != [] && m.todo[0] in m.copies ==> HeadLeft(m.(pc := RecWriteCompleted)) == 15
  {
  }

  lemma PicksLeft(m: Rec)
    requires m.todo != [] && m.todo[0] in m.copies && m.pc.RecManage?
    requires !(m.done >= Elements(m.copies[m.todo[0]].targets))
    ensures var targets := m.copies[m.todo[0]].targets;
            PassPick(m) in targets && PassPick(m) in Elements(targets) && PassPick(m) !in m.done
  {
    LeftIn(m.copies[m.todo[0]].targets, m.done);
  }

  lemma ManageNext(w: World, m: Rec, pick: Path)
    requires m.todo != [] && m.todo[0] in m.copies && m.pc.RecManage?
    ensures var targets, next := m.copies[m.todo[0]].targets, AdvanceRec(w, m, pick).1;
            && (m.done >= Elements(targets) ==> next == Some(m.(pc := RecWriteCompleted)))
            && (!(m.done >= Elements(targets)) && pick in targets ==>
                  next == Some(m.(done := m.done + {pick}, remanaged := m.remanaged - {pick})))
  {
  }

  lemma FewerLeft(all: set<Path>, done: set<Path>, p: Path)
    requires p in all && p !in done
    ensures |all - (done + {p})| < |all - done|
  {
    assert all - (done + {p}) == all - done - {p} && p in all - done;
  }

  lemma DecidingGoesOn(w: World, m: Rec, pick: Path)
    requires m.todo != [] && m.todo[0] in m.copies && m.pc.ReadPlan?
    ensures HeadGoesOn(w, m, AdvanceRec(w, m, pick))
  {
    hide Elements, Observed, Unchanged, Matches, HeadLeft;
    var r := m.copies[m.todo[0]];
    ReadLeft(m);
    LaterLeft(m, DecisionPc(Decide(r, m.obs, PlanStateOf(w, r.planId), m.todo[0] in w.ops)));
    assert AdvanceRec(w, m, pick)
        == (Nothing, Some(m.(pc := DecisionPc(Decide(r, m.obs, PlanStateOf(w, r.planId), m.todo[0] in w.ops)))));
    assert Decide(r, m.obs, PlanStateOf(w, r.planId), m.todo[0] in w.ops).FinishPlan? ==> CanComplete(w, r.planId, m.todo[0]);
    hide AdvanceRec, Decide, CanComplete;
  }

  lemma ReadLeft(m: Rec)
    requires m.todo != [] && m.todo[0] in m.copies && m.pc.ReadPlan?
    ensures HeadLeft(m) == 19 + |Elements(m.copies[m.todo[0]].targets)|
  {
  }

  lemma LaterLeft(m: Rec, pc: RPc)
    requires m.todo != [] && m.todo[0] in m.copies && !pc.Observe? && !pc.ReadPlan?
    ensures HeadLeft(m.(pc := pc)) <= 18 + |Elements(m.copies[m.todo[0]].targets)|
    ensures !pc.CompleteCas? ==> HeadLeft(m.(pc := pc)) <= 17 + |Elements(m.copies[m.todo[0]].targets)|
    ensures pc.CompleteCas? ==> HeadLeft(m.(pc := pc)) == 18 + |Elements(m.copies[m.todo[0]].targets)|
    ensures pc.FailCas? ==> HeadLeft(m.(pc := pc)) == 16
    ensures pc.RecWriteFailed? || pc.WriteAmbiguous? ==> HeadLeft(m.(pc := pc)) < 16
  {
    SubsetSize(Elements(m.copies[m.todo[0]].targets) - m.done, Elements(m.copies[m.todo[0]].targets));
  }

  lemma FilingGoesOn(w: World, m: Rec, pick: Path)
    requires m.todo != [] && m.todo[0] in m.copies && !m.pc.Observe? && !m.pc.RecManage? && !m.pc.ReadPlan?
    requires m.pc.CompleteCas? ==> CanComplete(w, m.copies[m.todo[0]].planId, m.todo[0])
    ensures HeadGoesOn(w, m, AdvanceRec(w, m, pick))
  {
    hide Decide, Observed, Elements, HeadLeft;
    assert m.(pc := m.pc) == m;
    LaterLeft(m, m.pc);
    LaterLeft(m, RecManage);
    LaterLeft(m, RecWriteFailed);
    LaterLeft(m, WriteAmbiguous(ProjectionInconsistent));
  }

  /** One more step, seen from the pass. */
  lemma SmoothHead(w: World, m: Rec)
    requires m.todo != [] && m.todo[0] in m.copies
    requires m.pc.CompleteCas? ==> CanComplete(w, m.copies[m.todo[0]].planId, m.todo[0])
    ensures HeadGoesOn(w, m, AdvanceRec(w, m, PassPick(m)))
  {
    hide HeadGoesOn, AdvanceRec, CanComplete;
    if m.pc.Observe? {
      ObservingGoesOn(w, m);
    } else if m.pc.RecManage? {
      ManagingGoesOn(w, m);
    } else if m.pc.ReadPlan? {
      DecidingGoesOn(w, m, PassPick(m));
    } else {
      FilingGoesOn(w, m, PassPick(m));
    }
  }

  lemma LeftIn(targets: seq<Path>, done: set<Path>)
    requires !(done >= Elements(targets))
    ensures exists p :: p in targets && p !in done
  {
    var p :| p in Elements(targets) && p !in done;
    assert p in targets;
  }

  lemma SmoothPassStep(s: State, k: PassId) returns (a: Action)
    requires Inv(s) && SmoothPass(s, k) && s.passes[k].todo != []
    ensures a.RecAdvance? && a.pass == k && Next(s, a).Some?
    ensures var s' := Next(s, a).value;
            && Inv(s') && SmoothPass(s', k)
            && (|s'.passes[k].todo| < |s.passes[k].todo|
                || (|s'.passes[k].todo| == |s.passes[k].todo| && HeadLeft(s'.passes[k]) < HeadLeft(s.passes[k])))
  {
    HeadThere(s, k);
    a := RecAdvance(k, PassPick(s.passes[k]));
    RecAdvanceKeeps(s, k, a.pick);
    hide Inv, Next, AdvanceRec, Perform;
    RecMaps(s, a);
    SmoothHead(s.w, s.passes[k]);
    SameNothing(s.w, s.passes[k].todo[0]);
  }

  lemma SameNothing(w: World, op: OpId)
    ensures Perform(w, op, Nothing) == w
  {
  }

  lemma HeadThere(s: State, k: PassId)
    requires Inv(s) && k in s.passes && s.passes[k].todo != []
    ensures s.passes[k].todo[0] in s.passes[k].copies && RecRunning(s, k)
    ensures forall pick :: Next(s, RecAdvance(k, pick)).Some?
  {
    hide PlansInv, ReceiptsInv, ThreadsInv, HeadInv, AdvanceRec, WithRec;
    assert PassInv(s.w, s.specs, s.passes[k]) && s.passes[k].todo[0] in s.passes[k].todo;
  }

  /** A pass that nobody disturbs comes to the end of its list, and can finish. */
  lemma {:induction false} UndisturbedPass(s: State, k: PassId) returns (acts: seq<Action>)
    requires Inv(s) && SmoothPass(s, k)
    ensures Exec(s, acts).Some? && forall a :: a in acts ==> a.RecAdvance? && a.pass == k
    ensures var s' := Exec(s, acts).value;
            k in s'.passes && s'.passes[k].todo == [] && Next(s', FinishReconcile(k)).Some?
    decreases if k in s.passes then |s.passes[k].todo| else 0, if k in s.passes then HeadLeft(s.passes[k]) else 0
  {
    if s.passes[k].todo == [] {
      acts := [];
    } else {
      hide Next, Inv, SmoothPass;
      var a := SmoothPassStep(s, k);
      var rest := UndisturbedPass(Next(s, a).value, k);
      acts := [a] + rest;
      assert acts[1..] == rest;
    }
  }

  /** A pass can begin whenever its number is free, and then nothing is in its way. */
  lemma PassCanBegin(s: State, k: PassId, order: seq<OpId>)
    requires Inv(s) && k !in s.passes && ListsPending(s.w, order)
    ensures Next(s, StartReconcile(k, order)).Some?
    ensures Inv(Next(s, StartReconcile(k, order)).value) && SmoothPass(Next(s, StartReconcile(k, order)).value, k)
  {
    StartReconcileKeeps(s, k, order);
  }

  /**
    An exception in a pass. While a receipt is being failed it leaves that receipt for review, and so does
    a refused transition of the plan; anywhere else it ends the pass, and so does a refused completion.
   */
  lemma PassFailure(s: State, a: Action, k: PassId)
    requires Inv(s) && Next(s, a).Some? && ByReconcile(a) && a.pass == k && RecRunning(s, k)
    requires var m := s.passes[k];
             || a.RecThrow?
             || (m.pc == FailCas && !PlanIs(s.w, m.copies[m.todo[0]].planId, Applying))
             || (m.pc == CompleteCas && !CanComplete(s.w, m.copies[m.todo[0]].planId, m.todo[0]))
    ensures var s', m := Next(s, a).value, s.passes[k];
            && (m.pc == FailCas || m.pc == RecWriteFailed ==>
                  k in s'.passes && s'.passes[k] == m.(pc := WriteAmbiguous(ProjectionInconsistent)))
            && (m.pc != FailCas && m.pc != RecWriteFailed ==> k !in s'.passes)
            && s'.w.files == s.w.files && s'.w.managed == s.w.managed
            && ((a.RecThrow? && a.effect) || s'.w == s.w)
  {
    hide Inv, Next, AdvanceRec, ThrowRec, Perform, CanComplete, PlanIs;
    RecMaps(s, a);
    FailureStep(s.w, s.passes[k], a);
    FailureEffect(s.w, s.passes[k].todo[0], RecStep(s, a).0);
  }

  lemma FailureStep(w: World, m: Rec, a: Action)
    requires ByReconcile(a) && m.todo != [] && m.todo[0] in m.copies
    requires a.RecThrow? || (m.pc == FailCas && !PlanIs(w, m.copies[m.todo[0]].planId, Applying))
             || (m.pc == CompleteCas && !CanComplete(w, m.copies[m.todo[0]].planId, m.todo[0]))
    ensures var r := if a.RecAdvance? then AdvanceRec(w, m, a.pick) else ThrowRec(m, a.effect);
            && r.1 == (if m.pc == FailCas || m.pc == RecWriteFailed then Some(m.(pc := WriteAmbiguous(ProjectionInconsistent)))
                       else None)
            && !r.0.WriteFile? && !r.0.PutManaged? && ((a.RecThrow? && a.effect) || r.0 == Nothing)
  {
    hide PlanIs, CanComplete, Decide, Elements;
  }

  lemma FailureEffect(w: World, op: OpId, e: Effect)
    requires !e.WriteFile? && !e.PutManaged?
    ensures Perform(w, op, e).files == w.files && Perform(w, op, e).managed == w.managed && Perform(w, op, Nothing) == w
  {
  }
}
