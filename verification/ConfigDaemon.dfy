/**
  The daemon that `applyPlan` and `reconcile` run in: its durable state, the calls in progress,
  and everything that may happen while one call waits. The ghost history is a run of the
  configuration machine, and every method keeps it one: what is proved of all runs of the
  machine holds for this code.
 */
module ConfigDaemon {
  import opened Prelude
  import opened ConfigPolicy
  import opened ConfigProtocol
  import opened ConfigSafety
  import opened ConfigRecovery

  /** The call that is waiting. */
  datatype Actor = Op(op: OpId) | Pass(pass: PassId)

  /** Whatever somebody else may do meanwhile, short of killing the daemon. */
  predicate Foreign(a: Action, actor: Actor) {
    && !a.Crash?
    && match actor
       case Op(op) => !((a.Begin? || a.Advance? || a.Throw?) && a.op == op)
       case Pass(k) => !((a.RecAdvance? || a.RecThrow? || a.FinishReconcile?) && a.pass == k)
  }

  /** Plans keep their contents, and none goes back to prepared. */
  ghost predicate PlansAge(s: State, s': State) {
    && (forall q :: q in s.specs ==> q in s'.specs && s'.specs[q] == s.specs[q])
    && (forall q :: q in s.specs && !PlanIs(s.w, q, PlanPrepared) ==> !PlanIs(s'.w, q, PlanPrepared))
  }

  ghost predicate KeptPass(m: Rec, m': Rec) {
    && m' == m.(edited := m'.edited, renamed := m'.renamed, remanaged := m'.remanaged, lost := m'.lost)
    && m.lost <= m'.lost
  }

  /** The waiting call finds itself where it was; only its history has grown. */
  ghost predicate Kept(s: State, s': State, actor: Actor) {
    && PlansAge(s, s')
    && match actor
       case Op(op) =>
         && (op in s'.apply <==> op in s.apply)
         && (op in s.apply ==> SameThread(s.apply[op], s'.apply[op]))
         && (op !in s.apply && op !in s.w.receipts ==> op !in s'.w.receipts)
       case Pass(k) => k in s.passes ==> k in s'.passes && KeptPass(s.passes[k], s'.passes[k])
  }

  lemma KeptOn(a: State, b: State, c: State, actor: Actor)
    requires Kept(a, b, actor) && Kept(b, c, actor)
    ensures Kept(a, c, actor)
  {
  }

  lemma PlansAgeBy(w: World, op: OpId, e: Effect, q: PlanId, planId: PlanId, ps: set<Path>)
    requires Within(e, planId, ps) && !PlanIs(w, q, PlanPrepared)
    ensures !PlanIs(Perform(w, op, e), q, PlanPrepared)
  {
  }

  lemma ThreadEffectWithin(s: State, a: Action)
    requires Inv(s) && (a.Advance? || a.Throw?) && a.op in s.apply && s.apply[a.op].planId in s.specs
    ensures Within(ThreadStep(s, a).0, s.apply[a.op].planId, Elements(s.specs[s.apply[a.op].planId].targets))
  {
    hide AdvanceThread, ThrowThread, Within, ThreadWorld;
    KnownThread(s, a.op);
    var t := s.apply[a.op];
    if a.Advance? {
      AdvanceOk(s.w, s.specs, a.op, t, a.pick);
    } else {
      ThrowOk(s.w, s.specs, a.op, t, a.effect);
    }
  }

  lemma PlansAgeThread(s: State, a: Action)
    requires Inv(s) && Next(s, a).Some? && (a.Advance? || a.Throw?)
    ensures PlansAge(s, Next(s, a).value)
  {
    hide Inv, Next, AdvanceThread, ThrowThread, Perform, PlanIs, Within;
    ThreadMaps(s, a);
    ThreadEffectWithin(s, a);
    var e := ThreadStep(s, a).0;
    var ps := Elements(s.specs[s.apply[a.op].planId].targets);
    forall q | q in s.specs && !PlanIs(s.w, q, PlanPrepared) ensures !PlanIs(Perform(s.w, a.op, e), q, PlanPrepared) {
      PlansAgeBy(s.w, a.op, e, q, s.apply[a.op].planId, ps);
    }
  }

  lemma PassEffectWithin(w: World, m: Rec, a: Action)
    requires ByReconcile(a) && m.todo != [] && m.todo[0] in m.copies
    ensures var r := m.copies[m.todo[0]];
            var e := (if a.RecAdvance? then AdvanceRec(w, m, a.pick) else ThrowRec(m, a.effect)).0;
            Within(e, r.planId, Elements(r.targets))
  {
    hide Decide, Observed, Look;
  }

  lemma PlansAgePass(s: State, a: Action)
    requires Inv(s) && Next(s, a).Some? && ByReconcile(a)
    ensures PlansAge(s, Next(s, a).value)
  {
    hide Inv, Next, AdvanceRec, ThrowRec, Perform, PlanIs, Within;
    RecMaps(s, a);
    var m := s.passes[a.pass];
    PassEffectWithin(s.w, m, a);
    var e := RecStep(s, a).0;
    var ps := Elements(m.copies[m.todo[0]].targets);
    forall q | q in s.specs && !PlanIs(s.w, q, PlanPrepared) ensures !PlanIs(Perform(s.w, m.todo[0], e), q, PlanPrepared) {
      PlansAgeBy(s.w, m.todo[0], e, q, m.copies[m.todo[0]].planId, ps);
    }
  }

  lemma PlansAgeQuiet(s: State, a: Action)
    requires Next(s, a).Some? && !a.Advance? && !a.Throw? && !ByReconcile(a)
    ensures PlansAge(s, Next(s, a).value)
  {
    hide WfSpec, ListsPending, FirstPass, FirstThread, TargetsFree, ThreadsEdited, PassesEdited, SetFile;
  }

  /** Nobody else ends a call. */
  lemma QuietStays(s: State, a: Action)
    requires Next(s, a).Some? && !a.Advance? && !a.Throw? && !ByReconcile(a) && !a.Crash?
    ensures s.apply.Keys <= Next(s, a).value.apply.Keys
    ensures forall k :: k in s.passes && !(a.FinishReconcile? && a.pass == k) ==> k in Next(s, a).value.passes
  {
    hide WfSpec, ListsPending, FirstPass, FirstThread, TargetsFree, SetFile;
  }

  lemma ForeignKeeps(s: State, a: Action, actor: Actor)
    requires Inv(s) && Next(s, a).Some? && Foreign(a, actor)
    ensures Kept(s, Next(s, a).value, actor)
  {
    hide Inv, Next, PlansAge, AdvanceThread, ThrowThread, AdvanceRec, ThrowRec, Perform;
    if a.Advance? || a.Throw? {
      PlansAgeThread(s, a);
      ThreadMaps(s, a);
      if actor.Op? {
        OnlyPutReceipt(s.w, a.op, ThreadStep(s, a).0, actor.op);
      }
    } else if ByReconcile(a) {
      PlansAgePass(s, a);
      RecMaps(s, a);
      HeadKnown(s, a.pass);
      if actor.Op? {
        OnlyPutReceipt(s.w, s.passes[a.pass].todo[0], RecStep(s, a).0, actor.op);
      }
    } else {
      PlansAgeQuiet(s, a);
      QuietMaps(s, a);
      QuietStays(s, a);
      QuietAction(s, a);
      Beginnings(s, a);
    }
  }

  /** The history may be extended by any enabled action. */
  lemma Extend(run: seq<State>, acts: seq<Action>, a: Action, s: State)
    requires IsRun(run, acts) && Next(run[|acts|], a) == Some(s)
    ensures IsRun(run + [s], acts + [a])
  {
    hide Next, Init;
    var run', acts' := run + [s], acts + [a];
    forall i | 0 <= i < |acts'| ensures StepAt(run', acts', i) {
      if i < |acts| {
        assert StepAt(run, acts, i);
      }
    }
  }

  lemma LastInv(run: seq<State>, acts: seq<Action>)
    requires IsRun(run, acts)
    ensures |run| == |acts| + 1 && Inv(run[|acts|])
  {
    RunInv(run, acts, |acts|);
  }

  /** What approving a plan recorded: the token to be shown, and until when. */
  datatype Approval = Approval(token: string, expiresAt: int)

  class Daemon {
    var w: World
    var specs: map<PlanId, Spec>
    var approvals: map<PlanId, Approval>
    var clock: int
    // the calls in progress
    var apply: map<OpId, Thread>
    var passes: map<PassId, Rec>
    ghost var run: seq<State>
    ghost var acts: seq<Action>

    function Now(): State
      reads this
    {
      State(w, specs, apply, passes)
    }

    /** The history is a run of the machine that ends in the present state. */
    ghost predicate Valid()
      reads this
    {
      IsRun(run, acts) && run[|acts|] == Now()
    }

    /** A daemon on an empty store, with these files on disk. */
    constructor (files: map<Path, string>)
      ensures Valid() && Now() == State(World(files, map[], map[], map[], map[], map[]), map[], map[], map[])
    {
      w := World(files, map[], map[], map[], map[], map[]);
      specs, apply, passes := map[], map[], map[];
      approvals, clock := map[], 0;
      run, acts := [State(World(files, map[], map[], map[], map[], map[]), map[], map[], map[])], [];
    }

    /** Record the step that led here. */
    ghost method Log(a: Action)
      requires IsRun(run, acts) && Next(run[|acts|], a) == Some(Now())
      modifies this`run, this`acts
      ensures Valid() && acts == old(acts) + [a] && run == old(run) + [Now()]
    {
      Extend(run, acts, a, Now());
      run, acts := run + [Now()], acts + [a];
    }

    /** While `actor` waits, anything may happen any number of times: edits, operations, passes, approvals. */
    method Elsewhere(actor: Actor)
      requires Valid()
      modifies this
      ensures Valid() && Kept(old(Now()), Now(), actor) && old(run) <= run && old(acts) <= acts && clock >= old(clock)
      ensures forall i :: |old(acts)| <= i < |acts| ==> Foreign(acts[i], actor)
    {
      hide IsRun, Next, Kept, Inv;
      assert Kept(Now(), Now(), actor) by { KeptAtFirst(Now(), actor); }
      var n :| 0 <= n;
      for i := 0 to n
        invariant Valid() && Kept(old(Now()), Now(), actor) && old(run) <= run && old(acts) <= acts && clock >= old(clock)
        invariant forall j :: |old(acts)| <= j < |acts| ==> Foreign(acts[j], actor)
      {
        var tick: int := *;
        var approved: map<PlanId, Approval> := *;
        clock, approvals := if tick > 0 then clock + tick else clock, approved;
        var a: Action := *;
        var s := Next(Now(), a);
        if Foreign(a, actor) && s.Some? {
          ghost var was := Now();
          LastInv(run, acts);
          ForeignKeeps(was, a, actor);
          w, specs, apply, passes := s.value.w, s.value.specs, s.value.apply, s.value.passes;
          KeptOn(old(Now()), was, Now(), actor);
          Log(a);
        }
      }
    }

    /** Operation `op` has an effect and goes on as `t`, or ends; everybody else takes note. */
    method Take(op: OpId, e: Effect, t: Option<Thread>)
      modifies this`w, this`apply, this`passes
      ensures Now() == WithThread(old(Now()), op, (e, t))
      ensures specs == old(specs) && w == Perform(old(w), op, e)
      ensures (op in apply <==> t.Some?) && (t.Some? ==> apply[op] == t.value)
    {
      var others := ThreadsNote(apply - {op}, op, e);
      w, passes := Perform(w, op, e), PassesNote(passes, op, e);
      apply := match t case None => others case Some(x) => others[op := x];
    }

    /** Pass `k` has an effect for `op` and goes on as `m`, or ends. */
    method TakePass(k: PassId, op: OpId, e: Effect, m: Option<Rec>)
      modifies this`w, this`apply, this`passes
      ensures Now() == WithRec(old(Now()), k, op, (e, m))
      ensures specs == old(specs) && w == Perform(old(w), op, e)
      ensures (k in passes <==> m.Some?) && (m.Some? ==> passes[k] == m.value)
    {
      var others := PassesNote(passes - {k}, op, e);
      w, apply := Perform(w, op, e), ThreadsNote(apply, op, e);
      passes := match m case None => others case Some(x) => others[k := x];
    }
  }

  lemma KeptAtFirst(s: State, actor: Actor)
    ensures Kept(s, s, actor)
  {
  }
}
