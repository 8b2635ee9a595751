/**
  A run in which `reconcile` records a completion that never happened: the daemon dies after
  the plan moved to applying, the target is deleted by hand, and a receipt without hashes
  matches an absent file.
 */
module ConfigWitness {
  import opened Prelude
  import opened ConfigPolicy
  import opened ConfigProtocol
  import opened ConfigRecovery

  const UPDATE := Spec(["f"], map["f" := Some("before")], map["f" := Some("after")])

  const RECEIPT := Receipt("p", Prepared, ["f"], map["f" := Some("before")], map[], NoFailure)

  const SCRIPT: seq<Action> := [
    AddPlan("p", UPDATE), Approve("p"), Begin("op", "p"),
    Advance("op", ""), Advance("op", ""), Crash,
    Edit("f", None), StartReconcile(0, ["op"]),
    RecAdvance(0, "f"), RecAdvance(0, ""), RecAdvance(0, ""), RecAdvance(0, ""),
    RecAdvance(0, "f"), RecAdvance(0, ""), RecAdvance(0, "")]

  function Before(plans: map<PlanId, Plan>, specs: map<PlanId, Spec>): State {
    State(World(map["f" := "before"], map[], map[], plans, map[], map[]), specs, map[], map[])
  }

  /** The world once the plan is applying and its receipt prepared. */
  function Begun(files: map<Path, string>, passes: map<PassId, Rec>): State {
    State(World(files, map["op" := RECEIPT], map[], map["p" := Plan(Applying, None)], map[], map["p" := "op"]),
          SPECS, map[], passes)
  }

  /** A pass that nobody has disturbed, at this copy of the receipt. */
  function Pass(copy: Receipt, pc: RPc, obs: HashMap, done: set<Path>): Rec {
    FirstPass(["op"], map["op" := copy]).(pc := pc, obs := obs, done := done)
  }

  /** The same pass once it has filed the receipt as reconciled. */
  function PassFiled(copy: Receipt): Rec {
    FirstPass(["op"], map["op" := copy]).(todo := [], reconciled := ["op"])
  }

  /** The world once Redis has completed the plan. */
  function Finished(r: Receipt, managed: map<Path, Managed>, m: Rec): State {
    State(World(map[], map["op" := r], managed, map["p" := Plan(Applied, Some("op"))], map["op" := "p"], map["p" := "op"]),
          SPECS, map[], map[0 := m])
  }

  const SPECS := map["p" := UPDATE]

  const THREAD := FirstThread("p", UPDATE)

  const ABSENT: HashMap := map["f" := None]

  const RECORDED := map["f" := Managed("op", None)]

  const DONE := RECEIPT.(state := Completed)

  const S0 := Before(map[], map[])
  const S1 := Before(map["p" := Plan(PlanPrepared, None)], SPECS)
  const S2 := Before(map["p" := Plan(Approved, None)], SPECS)
  const S3 := S2.(apply := map["op" := THREAD])
  const S4 := S2.(w := S2.w.(receipts := map["op" := RECEIPT]), apply := map["op" := THREAD.(pc := Cas)])
  const S5 := Begun(map["f" := "before"], map[]).(apply := map["op" := THREAD.(pc := Check)])
  const S6 := Begun(map["f" := "before"], map[])
  const S7 := Begun(map[], map[])
  const S8 := Begun(map[], map[0 := Pass(RECEIPT, Observe, map[], {})])
  const S9 := Begun(map[], map[0 := Pass(RECEIPT, Observe, ABSENT, {})])
  const S10 := Begun(map[], map[0 := Pass(RECEIPT, ReadPlan, ABSENT, {})])
  const S11 := Begun(map[], map[0 := Pass(RECEIPT, CompleteCas, ABSENT, {})])
  const S12 := Finished(RECEIPT, map[], Pass(RECEIPT, RecManage, ABSENT, {}))
  const S13 := Finished(RECEIPT, RECORDED, Pass(RECEIPT, RecManage, ABSENT, {"f"}))
  const S14 := Finished(RECEIPT, RECORDED, Pass(RECEIPT, RecWriteCompleted, ABSENT, {"f"}))
  const S15 := Finished(DONE, RECORDED, PassFiled(RECEIPT))

  const RUN: seq<State> := [S0, S1, S2, S3, S4, S5, S6, S7, S8, S9, S10, S11, S12, S13, S14, S15]

  // ---------------------------------------------------------------- steps

  lemma NoThread(op: OpId, e: Effect, path: Path)
    ensures ThreadsNote(map[], op, e) == map[] && ThreadsEdited(map[], path) == map[]
  {
  }

  lemma NothingElse(apply: map<OpId, Thread>, op: OpId, e: Effect)
    requires apply.Keys == {op}
    ensures ThreadsNote(apply - {op}, op, e) == map[]
    ensures forall t :: (apply - {op})[op := t] == map[op := t]
  {
  }

  lemma NoPass(op: OpId, e: Effect, path: Path)
    ensures PassesNote(map[], op, e) == map[] && PassesEdited(map[], path) == map[]
  {
  }

  /** A step of the operation, given its effect and where it goes. */
  lemma Moves(s: State, pick: Path, s': State)
    requires s.apply.Keys == {"op"} && s.apply["op"].planId == "p" && s.specs == SPECS
    requires var (e, t) := AdvanceThread(s.w, UPDATE, "op", s.apply["op"], pick);
             && s'.w == Perform(s.w, "op", e) && s'.apply == (match t case None => map[] case Some(x) => map["op" := x])
             && s'.passes == PassesNote(s.passes, "op", e)
    requires s'.specs == SPECS
    ensures Next(s, Advance("op", pick)) == Some(s')
  {
    hide AdvanceThread, Perform, PassesNote, ThreadNotes;
    var (e, t) := AdvanceThread(s.w, UPDATE, "op", s.apply["op"], pick);
    NothingElse(s.apply, "op", e);
    assert WithThread(s, "op", (e, t)) == s';
  }

  /** A step of the operation while no pass is going on. */
  lemma Alone(s: State, pick: Path, s': State)
    requires s.apply.Keys == {"op"} && s.apply["op"].planId == "p" && s.specs == SPECS && s.passes == map[]
    requires var (e, t) := AdvanceThread(s.w, UPDATE, "op", s.apply["op"], pick);
             && s'.w == Perform(s.w, "op", e) && s'.apply == (match t case None => map[] case Some(x) => map["op" := x])
    requires s'.specs == SPECS && s'.passes == map[]
    ensures Next(s, Advance("op", pick)) == Some(s')
  {
    hide AdvanceThread, Perform, PassesNote, ThreadsNote, Next;
    NoPass("op", AdvanceThread(s.w, UPDATE, "op", s.apply["op"], pick).0, "");
    Moves(s, pick, s');
  }

  /** Such a step fails, and the operation goes on. */
  lemma Throws(s: State, s': State)
    requires s.apply.Keys == {"op"} && s.apply["op"].planId == "p" && s.specs == SPECS && s.passes == map[]
    requires var (e, t) := ThrowThread(UPDATE, s.apply["op"], false);
             && s'.w == Perform(s.w, "op", e) && t.Some? && s'.apply == map["op" := t.value] && s'.passes == map[]
    requires s'.specs == SPECS
    ensures Next(s, Throw("op", false)) == Some(s')
  {
    hide ThrowThread, Perform, PassesNote, ThreadNotes;
    var (e, t) := ThrowThread(UPDATE, s.apply["op"], false);
    NoPass("op", e, "");
    NothingElse(s.apply, "op", e);
    assert WithThread(s, "op", (e, t)) == s';
  }

  /** A step of the pass, likewise. */
  lemma PassMoves(s: State, pick: Path, s': State)
    requires s.passes.Keys == {0} && RecRunning(s, 0) && s.passes[0].todo[0] == "op"
    requires var (e, m) := AdvanceRec(s.w, s.passes[0], pick);
             && s'.w == Perform(s.w, "op", e) && m.Some? && s'.passes == map[0 := m.value]
             && s'.apply == ThreadsNote(s.apply, "op", e)
    requires s'.specs == s.specs
    ensures Next(s, RecAdvance(0, pick)) == Some(s')
  {
    hide AdvanceRec, Perform, ThreadsNote, PassNotes;
    var (e, m) := AdvanceRec(s.w, s.passes[0], pick);
    assert PassesNote(s.passes - {0}, "op", e) == map[];
    assert WithRec(s, 0, "op", (e, m)) == s';
  }

  /** A step of the pass while no operation is going on. */
  lemma PassAlone(s: State, pick: Path, s': State)
    requires s.passes.Keys == {0} && RecRunning(s, 0) && s.passes[0].todo[0] == "op" && s.apply == map[]
    requires var (e, m) := AdvanceRec(s.w, s.passes[0], pick);
             && s'.w == Perform(s.w, "op", e) && m.Some? && s'.passes == map[0 := m.value] && s'.apply == map[]
    requires s'.specs == s.specs
    ensures Next(s, RecAdvance(0, pick)) == Some(s')
  {
    hide AdvanceRec, Perform, PassesNote, ThreadsNote, Next;
    NoThread("op", AdvanceRec(s.w, s.passes[0], pick).0, "");
    PassMoves(s, pick, s');
  }

  lemma SameWorld(a: World, b: World)
    requires a.files == b.files && a.receipts == b.receipts && a.managed == b.managed
    requires a.plans == b.plans && a.ops == b.ops && a.owner == b.owner
    ensures a == b
  {
  }

  /** Two states are one when their maps agree. */
  lemma SameState(a: State, b: State)
    requires a.w.files == b.w.files && a.w.receipts == b.w.receipts && a.w.managed == b.w.managed
    requires a.w.plans == b.w.plans && a.w.ops == b.w.ops && a.w.owner == b.w.owner
    requires a.specs == b.specs && a.apply == b.apply && a.passes == b.passes
    ensures a == b
  {
  }

  lemma OneTarget()
    ensures Elements(["f"]) == {"f"} && Elements(["op"]) == {"op"} && "f" in RECEIPT.targets
  {
  }

  lemma OneEntry<V>(v: V)
    ensures map["f" := v].Keys == {"f"} && map[]["f" := v] == map["f" := v]
  {
  }

  lemma EditStep(s: State, path: Path, hash: Option<string>)
    ensures Next(s, Edit(path, hash)) ==
              Some(s.(w := s.w.(files := SetFile(s.w.files, path, hash)),
                      apply := ThreadsEdited(s.apply, path), passes := PassesEdited(s.passes, path)))
  {
  }

  lemma Step0() ensures Next(S0, SCRIPT[0]) == Some(S1) {
    OneTarget();
    assert WfSpec(UPDATE);
  }

  lemma Step1() ensures Next(S1, SCRIPT[1]) == Some(S2) {
    SameState(Next(S1, SCRIPT[1]).value, S2);
  }

  lemma Step2() ensures Next(S2, SCRIPT[2]) == Some(S3) {
  }

  lemma Step3() ensures Next(S3, SCRIPT[3]) == Some(S4) {
    hide Next, ThreadsNote, PassesNote;
    SameWorld(Perform(S3.w, "op", PutReceipt(RECEIPT)), S4.w);
    Alone(S3, "", S4);
  }

  lemma Step4() ensures Next(S4, SCRIPT[4]) == Some(S5) {
    hide Next, ThreadsNote, PassesNote;
    SameWorld(Perform(S4.w, "op", TakePlan("p")), S5.w);
    Alone(S4, "", S5);
  }

  lemma Step5() ensures Next(S5, SCRIPT[5]) == Some(S6) {
  }

  lemma Step6() ensures Next(S6, SCRIPT[6]) == Some(S7) {
    hide Next, ThreadsEdited, PassesEdited;
    NoThread("", Nothing, "f");
    NoPass("", Nothing, "f");
    EditStep(S6, "f", None);
    SameState(Next(S6, SCRIPT[6]).value, S7);
  }

  lemma Step7() ensures Next(S7, SCRIPT[7]) == Some(S8) {
    OneTarget();
    assert ListsPending(S7.w, ["op"]);
  }

  lemma Step8() ensures Next(S8, SCRIPT[8]) == Some(S9) {
    hide Next, ThreadsNote, PassesNote;
    OneTarget();
    var none: Option<string> := None;
    OneEntry(none);
    assert {} - {"f"} == {};
    PassAlone(S8, "f", S9);
  }

  lemma Step9() ensures Next(S9, SCRIPT[9]) == Some(S10) {
    hide Next, ThreadsNote, PassesNote;
    OneTarget();
    PassAlone(S9, "", S10);
  }

  lemma Step10() ensures Next(S10, SCRIPT[10]) == Some(S11) {
    hide Next, ThreadsNote, PassesNote;
    OneTarget();
    assert !Unchanged(RECEIPT, ABSENT);
    assert Matches(map[], ABSENT);
    PassAlone(S10, "", S11);
  }

  lemma Step11() ensures Next(S11, SCRIPT[11]) == Some(S12) {
    hide Next, ThreadsNote, PassesNote;
    SameWorld(Perform(S11.w, "op", CompletePlan("p")), S12.w);
    PassAlone(S11, "", S12);
  }

  lemma Step12() ensures Next(S12, SCRIPT[12]) == Some(S13) {
    hide Next, ThreadsNote, PassesNote;
    OneTarget();
    assert {} + {"f"} == {"f"} && {} - {"f"} == {};
    SameWorld(Perform(S12.w, "op", PutManaged("f", None)), S13.w);
    PassAlone(S12, "f", S13);
  }

  lemma Step13() ensures Next(S13, SCRIPT[13]) == Some(S14) {
    hide Next, ThreadsNote, PassesNote;
    OneTarget();
    PassAlone(S13, "", S14);
  }

  lemma Files(copy: Receipt, pc: RPc, obs: HashMap, done: set<Path>)
    ensures var m := Pass(copy, pc, obs, done);
            m.todo != [] && NextReceipt(m.(reconciled := m.reconciled + ["op"])) == PassFiled(copy)
  {
    var none: seq<OpId> := [];
    assert none + ["op"] == ["op"] && ["op"][1..] == none;
  }

  lemma Step14() ensures Next(S14, SCRIPT[14]) == Some(S15) {
    hide Next, ThreadsNote, PassesNote;
    Files(RECEIPT, RecWriteCompleted, ABSENT, {"f"});
    SameWorld(Perform(S14.w, "op", PutReceipt(DONE)), S15.w);
    PassAlone(S14, "", S15);
  }

  lemma FirstHalf()
    ensures forall i :: 0 <= i < 8 ==> Next(RUN[i], SCRIPT[i]) == Some(RUN[i + 1])
  {
    hide Next, Before, Begun, Pass;
    Step0(); Step1(); Step2(); Step3(); Step4(); Step5(); Step6(); Step7();
  }

  lemma SecondHalf()
    ensures forall i :: 8 <= i < 15 ==> Next(RUN[i], SCRIPT[i]) == Some(RUN[i + 1])
  {
    hide Next, Before, Begun, Pass;
    Step8(); Step9(); Step10(); Step11(); Step12(); Step13(); Step14();
  }

  lemma IsARun()
    ensures IsRun(RUN, SCRIPT)
  {
    hide Next;
    FirstHalf();
    SecondHalf();
  }

  /** `reconcile` marks the receipt completed and the plan applied; the target is not as intended. */
  lemma FalseCompletion()
    ensures IsRun(RUN, SCRIPT)
    ensures ByReconcile(SCRIPT[14]) && Marks(RUN, SCRIPT, 14, "op", Completed)
    ensures 0 in RUN[14].passes && RUN[14].passes[0].edited == {} && RUN[14].passes[0].renamed == {}
    ensures RUN[15].w.plans["p"] == Plan(Applied, Some("op"))
    ensures !TargetsAt(RUN[15].w.files, UPDATE.targets, UPDATE.intended, {})
  {
    IsARun();
    assert "f" in UPDATE.targets && Observed(RUN[15].w.files, "f") == None;
  }
}
