/**
  A run in which a pass records a failure beside a live operation: the pass observes the target
  unchanged, the operation renames it, and then the pass fails the plan and files the receipt.
  Nobody edited anything from outside.
 */
module ConfigOverlapWitness {
  import opened Prelude
  import opened ConfigPolicy
  import opened ConfigProtocol
  import opened ConfigRecovery
  import opened ConfigWitness
  import opened ConfigFalseFailure

  const BESIDE_SCRIPT: seq<Action> :=
    PLAN_SCRIPT[..8] + [
      StartReconcile(0, ["op"]), RecAdvance(0, "f"), RecAdvance(0, ""), RecAdvance(0, ""),
      Advance("op", ""), RecAdvance(0, ""), RecAdvance(0, "")]

  /** The operation that was about to rename, with a pass beside it. */
  function Beside(m: Rec): State {
    T8.(passes := map[0 := m])
  }

  const UNCHANGED: HashMap := map["f" := Some("before")]

  const RENAMED := Pass(WRITING, FailCas, UNCHANGED, {}).(renamed := {"f"})

  const INTERRUPTED := WRITING.(state := Failed, failure := InterruptedBeforeCommit)

  const U9 := Beside(Pass(WRITING, Observe, map[], {}))
  const U10 := Beside(Pass(WRITING, Observe, UNCHANGED, {}))
  const U11 := Beside(Pass(WRITING, ReadPlan, UNCHANGED, {}))
  const U12 := Beside(Pass(WRITING, FailCas, UNCHANGED, {}))
  const U13 := T9.(passes := map[0 := RENAMED])
  const U14 :=
    During("after", WRITING, map[], PlanFailed, Progress, WRITING, 1, {}).(
      apply := map["op" := T9.apply["op"].(meddled := true)], passes := map[0 := RENAMED.(pc := RecWriteFailed)])
  const U15 := U14.(w := U14.w.(receipts := map["op" := INTERRUPTED]), passes := map[0 := PassFiled(WRITING)])

  const BESIDE_RUN: seq<State> := PLAN_RUN[..9] + [U9, U10, U11, U12, U13, U14, U15]

  /** A step of the pass beside the operation: the operation notes it. */
  lemma PassBeside(s: State, pick: Path, s': State)
    requires s.passes.Keys == {0} && RecRunning(s, 0) && s.passes[0].todo[0] == "op" && s.apply.Keys == {"op"}
    requires var (e, m) := AdvanceRec(s.w, s.passes[0], pick);
             && s'.w == Perform(s.w, "op", e) && m.Some? && s'.passes == map[0 := m.value]
             && s'.apply == map["op" := ThreadNotes("op", s.apply["op"], "op", e)]
    requires s'.specs == s.specs
    ensures Next(s, RecAdvance(0, pick)) == Some(s')
  {
    hide AdvanceRec, Perform, PassesNote, ThreadNotes, Next;
    assert ThreadsNote(s.apply, "op", AdvanceRec(s.w, s.passes[0], pick).0) == s'.apply;
    PassMoves(s, pick, s');
  }

  /** A step of the operation beside the pass: the pass notes it. */
  lemma MovesBeside(s: State, s': State)
    requires s.apply.Keys == {"op"} && s.apply["op"].planId == "p" && s.specs == SPECS && s.passes.Keys == {0}
    requires var (e, t) := AdvanceThread(s.w, UPDATE, "op", s.apply["op"], "");
             && s'.w == Perform(s.w, "op", e) && t.Some? && s'.apply == map["op" := t.value]
             && s'.passes == map[0 := PassNotes(s.passes[0], "op", e)]
    requires s'.specs == SPECS
    ensures Next(s, Advance("op", "")) == Some(s')
  {
    hide AdvanceThread, Perform, ThreadsNote, PassNotes, Next;
    assert PassesNote(s.passes, "op", AdvanceThread(s.w, UPDATE, "op", s.apply["op"], "").0) == s'.passes;
    Moves(s, "", s');
  }

  lemma Lists() ensures Next(T8, StartReconcile(0, ["op"])) == Some(U9) {
    OneTarget();
    assert ListsPending(T8.w, ["op"]);
  }

  lemma SeesUnchanged() ensures Next(U9, RecAdvance(0, "f")) == Some(U10) && Next(U10, RecAdvance(0, "")) == Some(U11) {
    hide Next, ThreadsNote, PassesNote;
    OneTarget();
    OneEntry(Some("before"));
    assert {} - {"f"} == {};
    PassBeside(U9, "f", U10);
    PassBeside(U10, "", U11);
  }

  lemma Decides() ensures Next(U11, RecAdvance(0, "")) == Some(U12) {
    hide Next, ThreadsNote, PassesNote;
    assert Unchanged(WRITING, UNCHANGED);
    PassBeside(U11, "", U12);
  }

  lemma RenamesBeside() ensures Next(U12, Advance("op", "")) == Some(U13) {
    hide Next, ThreadsNote, PassesNote;
    SameWorld(Perform(U12.w, "op", WriteFile("f", Some("after"))), U13.w);
    assert {} + {"f"} == {"f"};
    MovesBeside(U12, U13);
  }

  lemma FailsThePlan() ensures Next(U13, RecAdvance(0, "")) == Some(U14) {
    hide Next, ThreadsNote, PassesNote;
    SameWorld(Perform(U13.w, "op", Transition("p", Applying, PlanFailed)), U14.w);
    PassBeside(U13, "", U14);
  }

  lemma FilesAsFailed() ensures Next(U14, RecAdvance(0, "")) == Some(U15) {
    hide Next, ThreadsNote, PassesNote;
    Files(WRITING, RecWriteFailed, UNCHANGED, {});
    SameWorld(Perform(U14.w, "op", PutReceipt(INTERRUPTED)), U15.w);
    PassBeside(U14, "", U15);
  }

  lemma Before9()
    ensures forall i :: 0 <= i < 8 ==> Next(BESIDE_RUN[i], BESIDE_SCRIPT[i]) == Some(BESIDE_RUN[i + 1])
  {
    hide Next, During, Beside, Pass;
    First();
    Second();
  }

  lemma From9()
    ensures forall i :: 8 <= i < 15 ==> Next(BESIDE_RUN[i], BESIDE_SCRIPT[i]) == Some(BESIDE_RUN[i + 1])
  {
    hide Next, During, Beside, Pass;
    Lists(); SeesUnchanged(); Decides(); RenamesBeside(); FailsThePlan(); FilesAsFailed();
  }

  lemma IsThisRun()
    ensures IsRun(BESIDE_RUN, BESIDE_SCRIPT)
  {
    hide Next, During, Beside, Pass;
    Before9();
    From9();
    assert BESIDE_RUN[0] == S0;
  }

  /** The last two states. */
  lemma Ending()
    ensures |BESIDE_RUN| == 16 && |BESIDE_SCRIPT| == 15
    ensures BESIDE_RUN[14] == U14 && BESIDE_RUN[15] == U15 && BESIDE_SCRIPT[14] == RecAdvance(0, "")
  {
    hide During, Pass;
  }

  lemma EndingSays()
    ensures "op" in U15.w.receipts && U15.w.receipts["op"].state == Failed
    ensures "op" in U14.w.receipts && U14.w.receipts["op"].state == Writing
    ensures 0 in U14.passes && U14.passes[0].edited == {} && U14.passes[0].renamed == {"f"}
    ensures Observed(U15.w.files, "f") == Some("after")
  {
  }

  /** The receipt says failed, nobody edited the target, and it does not hold what it held before. */
  lemma FailedBesideARename()
    ensures IsRun(BESIDE_RUN, BESIDE_SCRIPT)
    ensures ByReconcile(BESIDE_SCRIPT[14]) && Marks(BESIDE_RUN, BESIDE_SCRIPT, 14, "op", Failed)
    ensures 0 in BESIDE_RUN[14].passes && BESIDE_RUN[14].passes[0].edited == {}
    ensures BESIDE_RUN[14].passes[0].renamed == {"f"}
    ensures !TargetsAt(BESIDE_RUN[15].w.files, UPDATE.targets, UPDATE.pre, {})
    ensures TargetsAt(BESIDE_RUN[15].w.files, UPDATE.targets, UPDATE.intended, {})
  {
    hide Next, IsRun, U14, U15, BESIDE_RUN, BESIDE_SCRIPT;
    IsThisRun();
    Ending();
    EndingSays();
    assert "f" in UPDATE.targets;
  }
}
