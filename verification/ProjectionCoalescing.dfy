/**
  Coalesced reprojection: at most one rebuild runs, and whatever arrives meanwhile is served by
  a single follow-up. One action is one uninterrupted piece of JavaScript.
 */
module ProjectionCoalescing {
  import opened Prelude

  /** `waiting` counts drains handed to a runner that has not started them, `busy` rebuilds in progress. */
  datatype State = State(running: bool, pending: bool, stopped: bool, accepting: bool, waiting: nat, busy: nat)

  datatype Action =
    | Request            // the tracker, or no tracker at all, starts the drain at once
    | RequestDeferred    // a runner that starts the drain later
    | StartDeferred
    | RunDone
    | RunThrows
    | Stopped(b: bool)
    | StopAccepting

  /** `drainProjections` up to its first await. */
  function StartDrain(s: State): State {
    if s.stopped then s.(pending := false, running := false) else s.(running := true, busy := s.busy + 1)
  }

  /** The drain loop after a rebuild. */
  function AfterRun(s: State): State {
    if !s.pending then s.(running := false)
    else if s.stopped then s.(pending := false, running := false)
    else s.(pending := false, busy := s.busy + 1)
  }

  function Next(s: State, a: Action): Option<State> {
    match a
    case Request =>
      if s.stopped then Some(s)
      else if s.running then Some(s.(pending := true))
      else if !s.accepting then Some(s)
      else Some(StartDrain(s))
    case RequestDeferred =>
      if s.stopped then Some(s)
      else if s.running then Some(s.(pending := true))
      else Some(s.(waiting := s.waiting + 1))
    case StartDeferred => if s.waiting > 0 then Some(StartDrain(s.(waiting := s.waiting - 1))) else None
    case RunDone => if s.busy > 0 then Some(AfterRun(s.(busy := s.busy - 1))) else None
    case RunThrows => if s.busy > 0 then Some(s.(busy := s.busy - 1, running := false)) else None
    case Stopped(b) => Some(s.(stopped := b))
    case StopAccepting => Some(s.(accepting := false))
  }

  ghost predicate StepAt(run: seq<State>, acts: seq<Action>, i: int)
    requires |run| == |acts| + 1 && 0 <= i < |acts|
  {
    Next(run[i], acts[i]) == Some(run[i + 1])
  }

  ghost predicate IsRun(run: seq<State>, acts: seq<Action>) {
    && |run| == |acts| + 1
    && run[0] == State(false, false, run[0].stopped, run[0].accepting, 0, 0)
    && forall i :: 0 <= i < |acts| ==> StepAt(run, acts, i)
  }

  /** A runner that starts a drain while another is under way. */
  predicate LateStart(s: State, a: Action) {
    a.StartDeferred? && s.running
  }

  /** A request that is not turned away: no stop signal, and a rebuild running or work still accepted. */
  predicate Requests(s: State, a: Action) {
    || (a.Request? && !s.stopped && (s.running || s.accepting))
    || (a.RequestDeferred? && !s.stopped)
  }

  /** The step starts a rebuild: one more is in progress, or one follows the one that ended. */
  predicate Starts(s: State, a: Action, s': State) {
    s'.busy > s.busy || (a.RunDone? && s'.busy == s.busy)
  }

  /** What may end a request without a rebuild. */
  predicate Excuses(s: State, a: Action) {
    a.RunThrows? || s.stopped
  }

  ghost predicate StartsAt(run: seq<State>, acts: seq<Action>, k: nat)
    requires |run| == |acts| + 1 && k < |acts|
  {
    Starts(run[k], acts[k], run[k + 1])
  }

  ghost predicate ServedAt(run: seq<State>, acts: seq<Action>, k: nat)
    requires |run| == |acts| + 1 && k < |acts|
  {
    StartsAt(run, acts, k) || Excuses(run[k], acts[k])
  }

  // ---------------------------------------------------------------- one at a time

  ghost predicate Single(s: State) {
    s.busy == if s.running then 1 else 0
  }

  lemma StepKeepsSingle(s: State, a: Action)
    requires Single(s) && Next(s, a).Some? && !LateStart(s, a)
    ensures Single(Next(s, a).value)
  {
  }

  lemma {:induction false} RunSingle(run: seq<State>, acts: seq<Action>, i: nat)
    requires IsRun(run, acts) && i < |run| && (forall j :: 0 <= j < i ==> !LateStart(run[j], acts[j]))
    ensures Single(run[i])
  {
    if i > 0 {
      RunSingle(run, acts, i - 1);
      assert StepAt(run, acts, i - 1);
      StepKeepsSingle(run[i - 1], acts[i - 1]);
    }
  }

  /** Without a drain that is started late, at most one rebuild is in progress. */
  lemma OneAtATime(run: seq<State>, acts: seq<Action>, i: nat)
    requires IsRun(run, acts) && i < |run| && (forall j :: 0 <= j < i ==> !LateStart(run[j], acts[j]))
    ensures run[i].busy <= 1
  {
    RunSingle(run, acts, i);
  }

  /** With a runner that starts work synchronously, nothing ever waits to be started. */
  lemma {:induction false} SynchronousRunnerNeverLate(run: seq<State>, acts: seq<Action>, i: nat)
    requires IsRun(run, acts) && i < |run| && (forall j :: 0 <= j < |acts| ==> !acts[j].RequestDeferred?)
    ensures run[i].waiting == 0 && (i < |acts| ==> !LateStart(run[i], acts[i]))
  {
    if i > 0 {
      SynchronousRunnerNeverLate(run, acts, i - 1);
      assert StepAt(run, acts, i - 1);
    }
    if i < |acts| {
      assert StepAt(run, acts, i);
    }
  }

  // ---------------------------------------------------------------- every request served

  predicate Awaited(s: State) {
    (s.running && s.pending) || s.waiting > 0
  }

  lemma StepAwaits(s: State, a: Action)
    requires Single(s) && Next(s, a).Some? && !LateStart(s, a) && (Awaited(s) || Requests(s, a))
    ensures var s' := Next(s, a).value; Starts(s, a, s') || Excuses(s, a) || Awaited(s')
  {
  }

  lemma {:induction false} AwaitedUntil(run: seq<State>, acts: seq<Action>, i: nat, j: nat)
    requires IsRun(run, acts) && i < j < |run| && Requests(run[i], acts[i])
    requires forall k :: 0 <= k < j ==> !LateStart(run[k], acts[k])
    ensures Awaited(run[j]) || exists k :: i <= k < j && ServedAt(run, acts, k)
    decreases j
  {
    hide Next, Single, Awaited, Starts, Requests;
    assert StepAt(run, acts, j - 1);
    RunSingle(run, acts, j - 1);
    if j > i + 1 {
      AwaitedUntil(run, acts, i, j - 1);
    }
    if j == i + 1 || Awaited(run[j - 1]) {
      StepAwaits(run[j - 1], acts[j - 1]);
      assert ServedAt(run, acts, j - 1) || Awaited(run[j]);
    }
  }

  /**
    Whenever everything has come to rest after a request that was not turned away, a rebuild was
    started by it or after it, or in between a rebuild threw or the stop signal was given. This
    holds for every runner that never starts a drain late over another one.
   */
  lemma EveryRequestServed(run: seq<State>, acts: seq<Action>, i: nat, j: nat)
    requires IsRun(run, acts) && i < j < |run| && Requests(run[i], acts[i])
    requires forall k :: 0 <= k < j ==> !LateStart(run[k], acts[k])
    requires run[j].busy == 0 && run[j].waiting == 0
    ensures exists k :: i <= k < j && ServedAt(run, acts, k)
  {
    AwaitedUntil(run, acts, i, j);
    RunSingle(run, acts, j);
  }

  // ---------------------------------------------------------------- no more than asked for

  function RequestsIn(run: seq<State>, acts: seq<Action>, n: nat): nat
    requires |run| == |acts| + 1 && n <= |acts|
  {
    if n == 0 then 0 else RequestsIn(run, acts, n - 1) + (if Requests(run[n - 1], acts[n - 1]) then 1 else 0)
  }

  function StartsIn(run: seq<State>, acts: seq<Action>, n: nat): nat
    requires |run| == |acts| + 1 && n <= |acts|
  {
    if n == 0 then 0 else StartsIn(run, acts, n - 1) + (if Starts(run[n - 1], acts[n - 1], run[n]) then 1 else 0)
  }

  /** What is still to be started was asked for, each by a request of its own. */
  function Owed(s: State): nat {
    s.waiting + if s.pending then 1 else 0
  }

  lemma StepPays(s: State, a: Action)
    requires Next(s, a).Some?
    ensures var s' := Next(s, a).value;
            (if Starts(s, a, s') then 1 else 0) + Owed(s') <= Owed(s) + (if Requests(s, a) then 1 else 0)
  {
  }

  lemma {:induction false} NoMoreOwedThanRequested(run: seq<State>, acts: seq<Action>, i: nat)
    requires IsRun(run, acts) && i < |run|
    ensures StartsIn(run, acts, i) + Owed(run[i]) <= RequestsIn(run, acts, i)
  {
    if i > 0 {
      NoMoreOwedThanRequested(run, acts, i - 1);
      assert StepAt(run, acts, i - 1);
      StepPays(run[i - 1], acts[i - 1]);
    }
  }

  /**
    With the tracker's synchronous start: at most one rebuild at a time, never more rebuilds than
    requests, and at rest no request without a rebuild that began after it, or an excuse.
   */
  lemma CoalescedAndServed(run: seq<State>, acts: seq<Action>, i: nat)
    requires IsRun(run, acts) && i < |run| && (forall j :: 0 <= j < |acts| ==> !acts[j].RequestDeferred?)
    ensures run[i].busy <= 1
    ensures StartsIn(run, acts, i) <= RequestsIn(run, acts, i)
    ensures run[i].busy == 0 ==>
              forall j :: 0 <= j < i && Requests(run[j], acts[j]) ==> exists k :: j <= k < i && ServedAt(run, acts, k)
  {
    forall j | 0 <= j <= i ensures run[j].waiting == 0 && (j < |acts| ==> !LateStart(run[j], acts[j])) {
      SynchronousRunnerNeverLate(run, acts, j);
    }
    RunSingle(run, acts, i);
    NoMoreOwedThanRequested(run, acts, i);
    if run[i].busy == 0 {
      forall j | 0 <= j < i && Requests(run[j], acts[j]) ensures exists k :: j <= k < i && ServedAt(run, acts, k) {
        EveryRequestServed(run, acts, j, i);
      }
    }
  }

  lemma {:induction false} PendingStays(run: seq<State>, acts: seq<Action>, i: nat, j: nat)
    requires IsRun(run, acts) && i < j < |run| && Requests(run[i], acts[i]) && acts[i].Request? && run[i].running
    requires forall k :: i <= k < j ==> !acts[k].RunDone? && !acts[k].RunThrows? && !acts[k].StartDeferred?
    ensures run[j].running && run[j].pending
    decreases j
  {
    assert StepAt(run, acts, j - 1);
    if j > i + 1 {
      PendingStays(run, acts, i, j - 1);
    }
  }

  /**
    However many requests came in during a rebuild, from `i` on, one follow-up serves them all: it starts
    when the rebuild ends, and leaves nothing pending.
   */
  lemma OneFollowUpServesAll(run: seq<State>, acts: seq<Action>, i: nat, j: nat)
    requires IsRun(run, acts) && i < j < |acts| && Requests(run[i], acts[i]) && acts[i].Request? && run[i].running
    requires forall k :: i <= k < j ==> !acts[k].RunDone? && !acts[k].RunThrows? && !acts[k].StartDeferred?
    requires acts[j] == RunDone && !run[j].stopped
    ensures StartsAt(run, acts, j) && run[j + 1].busy == run[j].busy && run[j + 1].running && !run[j + 1].pending
  {
    PendingStays(run, acts, i, j);
    assert StepAt(run, acts, j);
  }

  /** No rebuild starts under the stop signal, and a drain that ends leaves nothing pending. */
  lemma StopIsHeeded(run: seq<State>, acts: seq<Action>, i: nat)
    requires IsRun(run, acts) && i < |acts|
    ensures StartsAt(run, acts, i) ==> !run[i].stopped
    ensures acts[i].RunDone? && !run[i + 1].running ==> !run[i + 1].pending
    ensures run[i].stopped && (acts[i].RunDone? || acts[i].StartDeferred?) ==> !run[i + 1].running && !run[i + 1].pending
  {
    assert StepAt(run, acts, i);
  }

  // ---------------------------------------------------------------- late starts

  /** Two rebuilds run at once only after a drain was started late over another one. */
  lemma OverlapNeedsLateStart(run: seq<State>, acts: seq<Action>, i: nat)
    requires IsRun(run, acts) && i < |run| && run[i].busy >= 2
    ensures exists j :: 0 <= j < i && LateStart(run[j], acts[j])
  {
    if forall j :: 0 <= j < i ==> !LateStart(run[j], acts[j]) {
      RunSingle(run, acts, i);
    }
  }

  /** And the first late start does overlap, unless it sees the stop signal. */
  lemma LateStartOverlaps(run: seq<State>, acts: seq<Action>, i: nat)
    requires IsRun(run, acts) && i < |acts| && (forall j :: 0 <= j < i ==> !LateStart(run[j], acts[j]))
    requires LateStart(run[i], acts[i]) && !run[i].stopped
    ensures run[i + 1].busy == 2
  {
    RunSingle(run, acts, i);
    assert StepAt(run, acts, i);
  }

  /** After the stop signal no rebuild starts until it is taken back. */
  lemma {:induction false} NothingAfterStop(run: seq<State>, acts: seq<Action>, i: nat, j: nat)
    requires IsRun(run, acts) && i < j < |acts| && acts[i] == Stopped(true)
    requires forall k :: i < k < j ==> acts[k] != Stopped(false)
    ensures run[j].stopped && !StartsAt(run, acts, j)
  {
    if j > i + 1 {
      NothingAfterStop(run, acts, i, j - 1);
    }
    assert StepAt(run, acts, j - 1) && StepAt(run, acts, j);
  }

  /** Once the tracker accepts no more, a request made while nothing runs changes nothing, for good. */
  lemma {:induction false} NothingAccepted(run: seq<State>, acts: seq<Action>, i: nat, j: nat)
    requires IsRun(run, acts) && i < j < |acts| && acts[i] == StopAccepting
    ensures !run[j].accepting && (acts[j] == Request && !run[j].running ==> run[j + 1] == run[j])
  {
    if j > i + 1 {
      NothingAccepted(run, acts, i, j - 1);
    }
    assert StepAt(run, acts, j - 1) && StepAt(run, acts, j);
  }

  // ---------------------------------------------------------------- nothing hangs

  /** A request is always heard, and an accepted one starts a rebuild when none is running. */
  lemma HeardAtOnce(s: State)
    requires Single(s)
    ensures Next(s, Request).Some?
    ensures Requests(s, Request) && !s.running ==> Starts(s, Request, Next(s, Request).value)
    ensures Requests(s, Request) && s.running ==> Awaited(Next(s, Request).value)
  {
  }

  /** A rebuild that ends with nothing pending, or throws, leaves the way free for the next request. */
  lemma EndsFree(s: State)
    requires Single(s) && s.running
    ensures Next(s, RunThrows).Some? && !Next(s, RunThrows).value.running
    ensures Next(s, RunDone).Some? && (!s.pending || s.stopped ==> !Next(s, RunDone).value.running)
  {
  }
}
