/**
  A run in which `applyPlan` records a failure although every file was renamed: Redis refuses the
  completion, and then the receipt that would say so cannot be written. The outer catch clause
  sees a receipt that is neither committed nor pending, and files the operation as failed.
 */
module ConfigFalseFailure {
  import opened Prelude
  import opened ConfigPolicy
  import opened ConfigProtocol
  import opened ConfigSafety
  import opened ConfigRecovery
  import opened ConfigWitness

  const PLAN_SCRIPT: seq<Action> := [
    AddPlan("p", UPDATE), Approve("p"), Begin("op", "p"), Advance("op", ""), Advance("op", ""),
    Advance("op", ""), Advance("op", ""), Advance("op", ""), Advance("op", ""), Advance("op", ""),
    Advance("op", ""), Advance("op", ""), Advance("op", ""), Advance("op", "f"), Advance("op", ""),
    Throw("op", false), Throw("op", false), Advance("op", ""), Advance("op", "")]

  /** The operation at `pc` with this receipt variable, and this receipt on disk. */
  function During(file: string, disk: Receipt, managed: map<Path, Managed>, plan: PlanState, pc: Pc, receipt: Receipt,
                  count: nat, done: set<Path>): State {
    State(World(map["f" := file], map["op" := disk], managed, map["p" := Plan(plan, None)], map[], map["p" := "op"]),
          SPECS, map["op" := Thread("p", pc, receipt, count, done, {}, false, {})], map[])
  }

  const SNAPSHOTTED := RECEIPT.(state := Snapshotted, committed := UPDATE.intended)
  const WRITING := SNAPSHOTTED.(state := Writing)
  const COMMITTED := SNAPSHOTTED.(state := FilesCommitted)
  const UNWRITTEN := Uncertain(COMMITTED, ProjectionFailed)
  const MANAGED := map["f" := Managed("op", Some("after"))]

  const T6 := During("before", RECEIPT, map[], Applying, WriteSnapshotted, RECEIPT, 0, {})
  const T7 := During("before", SNAPSHOTTED, map[], Applying, WriteWriting, SNAPSHOTTED, 0, {})
  const T8 := During("before", WRITING, map[], Applying, Rename, WRITING, 0, {})
  const T9 := During("after", WRITING, map[], Applying, Progress, WRITING, 1, {})
  const T10 := During("after", WRITING, map[], Applying, WriteFilesCommitted, WRITING, 1, {})
  const T11 := During("after", COMMITTED, map[], Applying, Project, COMMITTED, 1, {})
  const T12 := During("after", COMMITTED, map[], Applying, Recommit, COMMITTED, 1, {})
  const T13 := During("after", COMMITTED, map[], Applying, Manage, COMMITTED, 1, {})
  const T14 := During("after", COMMITTED, MANAGED, Applying, Manage, COMMITTED, 1, {"f"})
  const T15 := During("after", COMMITTED, MANAGED, Applying, Complete, COMMITTED, 1, {"f"})
  const T16 := During("after", COMMITTED, MANAGED, Applying, WriteProjectionFailed, COMMITTED, 1, {"f"})
  const T17 := During("after", COMMITTED, MANAGED, Applying, FailPlan, UNWRITTEN, 1, {"f"})
  const T18 := During("after", COMMITTED, MANAGED, PlanFailed, WriteFailed, UNWRITTEN, 1, {"f"})
  const FILED := UNWRITTEN.(state := Failed, failure := ApplyFailed)
  const T19 := During("after", FILED, MANAGED, PlanFailed, WriteFailed, UNWRITTEN, 1, {"f"}).(apply := map[])

  const PLAN_RUN: seq<State> := [S0, S1, S2, S3, S4, S5, T6, T7, T8, T9, T10, T11, T12, T13, T14, T15, T16, T17, T18, T19]

  lemma Checks() ensures Next(S5, Advance("op", "")) == Some(T6) {
    hide Next, ThreadsNote, PassesNote;
    assert S5.apply["op"].edited == {};
    Alone(S5, "", T6);
  }

  lemma Snapshots() ensures Next(T6, Advance("op", "")) == Some(T7) {
    hide Next, ThreadsNote, PassesNote;
    SameWorld(Perform(T6.w, "op", PutReceipt(SNAPSHOTTED)), T7.w);
    Alone(T6, "", T7);
  }

  lemma Announces() ensures Next(T7, Advance("op", "")) == Some(T8) {
    hide Next, ThreadsNote, PassesNote;
    SameWorld(Perform(T7.w, "op", PutReceipt(WRITING)), T8.w);
    Alone(T7, "", T8);
  }

  lemma Renames() ensures Next(T8, Advance("op", "")) == Some(T9) {
    hide Next, ThreadsNote, PassesNote;
    SameWorld(Perform(T8.w, "op", WriteFile("f", Some("after"))), T9.w);
    Alone(T8, "", T9);
  }

  lemma Reports() ensures Next(T9, Advance("op", "")) == Some(T10) {
    hide Next, ThreadsNote, PassesNote;
    SameWorld(Perform(T9.w, "op", PutReceipt(WRITING)), T10.w);
    Alone(T9, "", T10);
  }

  lemma Commits() ensures Next(T10, Advance("op", "")) == Some(T11) {
    hide Next, ThreadsNote, PassesNote;
    SameWorld(Perform(T10.w, "op", PutReceipt(COMMITTED)), T11.w);
    Alone(T10, "", T11);
  }

  lemma Projects() ensures Next(T11, Advance("op", "")) == Some(T12) {
    hide Next, ThreadsNote, PassesNote;
    Alone(T11, "", T12);
  }

  lemma Recommits() ensures Next(T12, Advance("op", "")) == Some(T13) {
    hide Next, ThreadsNote, PassesNote;
    SameWorld(Perform(T12.w, "op", PutReceipt(COMMITTED)), T13.w);
    Alone(T12, "", T13);
  }

  lemma Manages() ensures Next(T13, Advance("op", "f")) == Some(T14) && Next(T14, Advance("op", "")) == Some(T15) {
    hide Next, ThreadsNote, PassesNote;
    assert Elements(UPDATE.targets) == {"f"} && {} + {"f"} == {"f"} && {} - {"f"} == {};
    SameWorld(Perform(T13.w, "op", PutManaged("f", Some("after"))), T14.w);
    Alone(T13, "f", T14);
    Alone(T14, "", T15);
  }

  lemma Loses() ensures Next(T15, Throw("op", false)) == Some(T16) {
    hide Next, ThreadsNote, PassesNote;
    Throws(T15, T16);
  }

  lemma LosesAgain() ensures Next(T16, Throw("op", false)) == Some(T17) {
    hide Next, ThreadsNote, PassesNote;
    Throws(T16, T17);
  }

  lemma FailedPlanWorld() ensures Perform(T17.w, "op", Transition("p", Applying, PlanFailed)) == T18.w {
    SameWorld(Perform(T17.w, "op", Transition("p", Applying, PlanFailed)), T18.w);
  }

  lemma FailsPlan() ensures Next(T17, Advance("op", "")) == Some(T18) {
    hide Next, ThreadsNote, PassesNote;
    FailedPlanWorld();
    Alone(T17, "", T18);
  }

  lemma Misfiles() ensures Next(T18, Advance("op", "")) == Some(T19) {
    hide Next, ThreadsNote, PassesNote;
    SameWorld(Perform(T18.w, "op", PutReceipt(FILED)), T19.w);
    Alone(T18, "", T19);
  }

  lemma First()
    ensures forall i :: 0 <= i < 6 ==> Next(PLAN_RUN[i], PLAN_SCRIPT[i]) == Some(PLAN_RUN[i + 1])
  {
    hide Next, During;
    Step0(); Step1(); Step2(); Step3(); Step4();
    Checks();
  }

  lemma Second()
    ensures forall i :: 6 <= i < 13 ==> Next(PLAN_RUN[i], PLAN_SCRIPT[i]) == Some(PLAN_RUN[i + 1])
  {
    hide Next, During;
    Snapshots(); Announces(); Renames(); Reports(); Commits(); Projects(); Recommits();
  }

  lemma Third()
    ensures forall i :: 13 <= i < 19 ==> Next(PLAN_RUN[i], PLAN_SCRIPT[i]) == Some(PLAN_RUN[i + 1])
  {
    hide Next, During;
    Manages(); Loses(); LosesAgain(); FailsPlan(); Misfiles();
  }

  lemma IsThatRun()
    ensures IsRun(PLAN_RUN, PLAN_SCRIPT)
  {
    hide Next;
    First();
    Second();
    Third();
  }

  /** The last two states. */
  lemma PlanEnding()
    ensures |PLAN_RUN| == 20 && |PLAN_SCRIPT| == 19
    ensures PLAN_RUN[18] == T18 && PLAN_RUN[19] == T19 && PLAN_SCRIPT[18] == Advance("op", "")
  {
    hide During;
  }

  lemma PlanEndingSays()
    ensures "op" in T18.w.receipts && T18.w.receipts["op"].state == FilesCommitted
    ensures "op" in T19.w.receipts && T19.w.receipts["op"].state == Failed && PlanIs(T19.w, "p", PlanFailed)
    ensures Observed(T19.w.files, "f") == Some("after")
  {
  }

  /** Plan and receipt say failed, and no pass will look again; the target holds the new content. */
  lemma FalseFailure()
    ensures IsRun(PLAN_RUN, PLAN_SCRIPT)
    ensures Marks(PLAN_RUN, PLAN_SCRIPT, 18, "op", Failed) && !Pending(PLAN_RUN[19].w.receipts["op"].state)
    ensures PlanIs(PLAN_RUN[19].w, "p", PlanFailed)
    ensures TargetsAt(PLAN_RUN[19].w.files, UPDATE.targets, UPDATE.intended, {})
    ensures !TargetsAt(PLAN_RUN[19].w.files, UPDATE.targets, UPDATE.pre, {})
  {
    hide Next, IsRun, T18, T19, PLAN_RUN, PLAN_SCRIPT;
    IsThatRun();
    PlanEnding();
    PlanEndingSays();
    assert "f" in UPDATE.targets;
  }
}
