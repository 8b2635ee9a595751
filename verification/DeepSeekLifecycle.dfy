/**
  The life of a DeepSeek bridge: `start`, `stop` and the `shutdown` both of them use, in every
  interleaving of their awaits. One action is one uninterrupted piece of JavaScript.
 */
module DeepSeekLifecycle {
  import opened Prelude

  /** The awaits of `shutdown`. */
  datatype Closing = Cancelling | ClosingAcp | ClosingLuwi

  datatype Start =
    | NotStarted
    | Registering | StartingAcp | Declaring | SettingIdle
    | CleaningUp(at: Closing, cancelled: bool, dirty: bool)   // `dirty`: a close has thrown
    | Started
    | Abandoned(cancelled: bool)                              // rejected; with the cancellation error?

  datatype Stop =
    | NotStopped
    | AwaitingNothing      // `stop` before any `start`: its continuation is the next microtask
    | AwaitingStart
    | ShuttingDown(at: Closing, dirty: bool)
    | Stopped(ok: bool)

  /**
    `early` is the stop made before `start`, which forgets it; `late` the one made after. The two
    fields hold a session or not. History: the acquisitions and close attempts of each resource.
   */
  datatype State = State(
    stopping: bool, acp: bool, luwi: bool, start: Start, early: Stop, late: Stop,
    acpAcquired: nat, acpCloses: nat, luwiAcquired: nat, luwiCloses: nat)

  datatype Action =
    | CallStart
    | CallStop
    | StartResumes(ok: bool)    // the awaited call of `start` resolves or rejects
    | EarlyResumes
    | LateResumes(ok: bool)

  /** `shutdown` from the point where the ACP session is gone: take the LUWI session and close it. */
  function CloseLuwi(s: State): (State, Option<Closing>) {
    if s.luwi then (s.(luwi := false, luwiCloses := s.luwiCloses + 1), Some(ClosingLuwi)) else (s, None)
  }

  /** `shutdown` up to its first await. */
  function Shutdown(s: State): (State, Option<Closing>) {
    var s1 := s.(stopping := true);
    if s1.acp then (s1.(acp := false), Some(Cancelling)) else CloseLuwi(s1)
  }

  /** `shutdown` resumed; a rejected cancel is swallowed, a rejected close is kept for the end. */
  function Continue(s: State, at: Closing): (State, Option<Closing>) {
    match at
    case Cancelling => (s.(acpCloses := s.acpCloses + 1), Some(ClosingAcp))
    case ClosingAcp => CloseLuwi(s)
    case ClosingLuwi => (s, None)
  }

  function StartFails(s: State, cancelled: bool): State {
    var (s1, at) := Shutdown(s);
    s1.(start := if at.Some? then CleaningUp(at.value, cancelled, false) else Abandoned(cancelled))
  }

  function ResumeStart(s: State, ok: bool): Option<State> {
    match s.start
    case Registering =>
      if !ok then Some(s.(start := Abandoned(false)))
      else
        var s1 := s.(luwi := true, luwiAcquired := s.luwiAcquired + 1);
        Some(if s.stopping then StartFails(s1, true) else s1.(start := StartingAcp))
    case StartingAcp =>
      if !ok then Some(StartFails(s, false))
      else
        var s1 := s.(acp := true, acpAcquired := s.acpAcquired + 1);
        Some(if s.stopping then StartFails(s1, true) else s1.(start := Declaring))
    case Declaring =>
      Some(if !ok then StartFails(s, false) else if s.stopping then StartFails(s, true) else s.(start := SettingIdle))
    case SettingIdle => Some(if ok then s.(start := Started) else StartFails(s, false))
    case CleaningUp(at, cancelled, dirty) =>
      var (s1, next) := Continue(s, at);
      var dirty1 := dirty || (!ok && !at.Cancelling?);
      Some(s1.(start := if next.Some? then CleaningUp(next.value, cancelled, dirty1) else Abandoned(cancelled && !dirty1)))
    case _ => None
  }

  function StopShutsDown(s: State): State {
    var (s1, at) := Shutdown(s);
    s1.(late := if at.Some? then ShuttingDown(at.value, false) else Stopped(true))
  }

  function ResumeLate(s: State, ok: bool): Option<State> {
    match s.late
    case AwaitingStart =>
      if s.start.Started? || (s.start.Abandoned? && s.start.cancelled) then Some(StopShutsDown(s))
      else if s.start.Abandoned? then Some(s.(late := Stopped(false)))
      else None
    case ShuttingDown(at, dirty) =>
      var (s1, next) := Continue(s, at);
      var dirty1 := dirty || (!ok && !at.Cancelling?);
      Some(s1.(late := if next.Some? then ShuttingDown(next.value, dirty1) else Stopped(!dirty1)))
    case _ => None
  }

  /** The early stop's continuation was queued before anything `start` awaits. */
  function Next(s: State, a: Action): Option<State> {
    match a
    case CallStart =>
      if s.start.NotStarted? then Some(s.(stopping := false, start := Registering)) else Some(s)
    case CallStop =>
      var s1 := s.(stopping := true);
      if s.start.NotStarted? then Some(if s.early.NotStopped? then s1.(early := AwaitingNothing) else s1)
      else Some(if s.late.NotStopped? then s1.(late := AwaitingStart) else s1)
    case StartResumes(ok) => if s.early.AwaitingNothing? then None else ResumeStart(s, ok)
    case EarlyResumes =>
      if s.early.AwaitingNothing? then
        var (s1, at) := Shutdown(s);
        Some(s1.(early := if at.Some? then ShuttingDown(at.value, false) else Stopped(true)))
      else None
    case LateResumes(ok) => ResumeLate(s, ok)
  }

  ghost predicate StepAt(run: seq<State>, acts: seq<Action>, i: int)
    requires |run| == |acts| + 1 && 0 <= i < |acts|
  {
    Next(run[i], acts[i]) == Some(run[i + 1])
  }

  ghost predicate IsRun(run: seq<State>, acts: seq<Action>) {
    && |run| == |acts| + 1
    && run[0] == State(false, false, false, NotStarted, NotStopped, NotStopped, 0, 0, 0, 0)
    && forall i :: 0 <= i < |acts| ==> StepAt(run, acts, i)
  }

  // ---------------------------------------------------------------- ownership

  predicate NothingYet(s: State) {
    !s.acp && !s.luwi && s.acpAcquired == 0 && s.luwiAcquired == 0 && s.acpCloses == 0 && s.luwiCloses == 0
  }

  predicate BothHeld(s: State) {
    s.acp && s.luwi && s.acpAcquired == 1 && s.luwiAcquired == 1 && s.acpCloses == 0 && s.luwiCloses == 0
  }

  /** Every session acquired has had exactly one close attempt, and none is held. */
  predicate AllClosed(s: State) {
    !s.acp && !s.luwi && s.acpCloses == s.acpAcquired <= 1 && s.luwiCloses == s.luwiAcquired <= 1
  }

  predicate Midway(s: State, at: Closing) {
    match at
    case Cancelling => !s.acp && s.luwi && s.acpAcquired == 1 && s.acpCloses == 0 && s.luwiAcquired == 1 && s.luwiCloses == 0
    case ClosingAcp => !s.acp && s.luwi && s.acpAcquired == 1 && s.acpCloses == 1 && s.luwiAcquired == 1 && s.luwiCloses == 0
    case ClosingLuwi => AllClosed(s)
  }

  ghost predicate Owned(s: State) {
    && (s.early.NotStopped? || s.early.AwaitingNothing? || s.early.Stopped?)
    && (s.start.NotStarted? ==> s.late.NotStopped?)
    && (s.early.AwaitingNothing? ==> s.start.NotStarted? || s.start.Registering?)
    && (!s.start.Started? && !s.start.Abandoned? ==> s.late.NotStopped? || s.late.AwaitingStart?)
    && match s.start
       case NotStarted | Registering => NothingYet(s)
       case StartingAcp => !s.acp && s.luwi && s.acpAcquired == 0 && s.luwiAcquired == 1 && s.acpCloses == 0 && s.luwiCloses == 0
       case Declaring | SettingIdle => BothHeld(s)
       case CleaningUp(at, _, _) => Midway(s, at)
       case Abandoned(_) => AllClosed(s) && !s.late.ShuttingDown?
       case Started =>
         if s.late.ShuttingDown? then Midway(s, s.late.at)
         else if s.late.Stopped? then AllClosed(s)
         else BothHeld(s)
  }

  lemma StartStepOwned(s: State, ok: bool)
    requires Owned(s) && !s.early.AwaitingNothing? && ResumeStart(s, ok).Some?
    ensures Owned(ResumeStart(s, ok).value)
  {
  }

  lemma LateStepOwned(s: State, ok: bool)
    requires Owned(s) && ResumeLate(s, ok).Some?
    ensures Owned(ResumeLate(s, ok).value)
  {
  }

  lemma StepKeepsOwned(s: State, a: Action)
    requires Owned(s) && Next(s, a).Some?
    ensures Owned(Next(s, a).value)
  {
    hide ResumeStart, ResumeLate;
    if a.StartResumes? {
      StartStepOwned(s, a.ok);
    } else if a.LateResumes? {
      LateStepOwned(s, a.ok);
    }
  }

  lemma {:induction false} RunOwned(run: seq<State>, acts: seq<Action>, i: nat)
    requires IsRun(run, acts) && i < |run|
    ensures Owned(run[i])
  {
    if i > 0 {
      RunOwned(run, acts, i - 1);
      assert StepAt(run, acts, i - 1);
      StepKeepsOwned(run[i - 1], acts[i - 1]);
    }
  }

  /** Nothing is ever closed twice, or without having been acquired. */
  lemma NeverClosedTwice(run: seq<State>, acts: seq<Action>, i: nat)
    requires IsRun(run, acts) && i < |run|
    ensures run[i].acpCloses <= run[i].acpAcquired <= 1
    ensures run[i].luwiCloses <= run[i].luwiAcquired <= 1
  {
    RunOwned(run, acts, i);
  }

  /** Once a failed start, or a stop made after it, has settled, everything acquired was closed. */
  lemma SettledMeansClosed(run: seq<State>, acts: seq<Action>, i: nat)
    requires IsRun(run, acts) && i < |run| && (run[i].start.Abandoned? || run[i].late.Stopped?)
    ensures AllClosed(run[i])
  {
    RunOwned(run, acts, i);
  }

  /** A stop made before `start` settles at once, with nothing acquired to close. */
  lemma EarlyStopFindsNothing(run: seq<State>, acts: seq<Action>, i: nat)
    requires IsRun(run, acts) && i < |acts| && acts[i].EarlyResumes?
    ensures run[i + 1].early == Stopped(true) && NothingYet(run[i + 1])
  {
    RunOwned(run, acts, i);
    assert StepAt(run, acts, i);
  }

  /** Nobody closes a running bridge: a started one keeps both sessions until `stop` is called. */
  lemma RunningKeepsBoth(run: seq<State>, acts: seq<Action>, i: nat)
    requires IsRun(run, acts) && i < |run| && run[i].start.Started? && run[i].late.NotStopped?
    ensures BothHeld(run[i])
  {
    RunOwned(run, acts, i);
  }

  // ---------------------------------------------------------------- a stop is never lost

  /** A stop made after `start` keeps its flag up. */
  ghost predicate StopSeen(s: State) {
    && (s.late.NotStopped? || s.stopping)
    && (s.start.NotStarted? ==> s.late.NotStopped?)
  }

  lemma StartStepSeen(s: State, ok: bool)
    requires StopSeen(s) && ResumeStart(s, ok).Some?
    ensures StopSeen(ResumeStart(s, ok).value)
  {
  }

  lemma LateStepSeen(s: State, ok: bool)
    requires StopSeen(s) && ResumeLate(s, ok).Some?
    ensures StopSeen(ResumeLate(s, ok).value)
  {
  }

  lemma {:induction false} StopIsSticky(run: seq<State>, acts: seq<Action>, i: nat)
    requires IsRun(run, acts) && i < |run|
    ensures StopSeen(run[i])
  {
    if i > 0 {
      hide ResumeStart, ResumeLate;
      StopIsSticky(run, acts, i - 1);
      assert StepAt(run, acts, i - 1);
      var s, a := run[i - 1], acts[i - 1];
      if a.StartResumes? {
        StartStepSeen(s, a.ok);
      } else if a.LateResumes? {
        LateStepSeen(s, a.ok);
      }
    }
  }

  /** `start` has not got past its last look at the flag, and a stop is waiting for it. */
  ghost predicate Doomed(s: State) {
    && !s.late.NotStopped? && s.stopping
    && !s.start.NotStarted? && !s.start.SettingIdle? && !s.start.Started?
  }

  lemma StartStepDoomed(s: State, ok: bool)
    requires Doomed(s) && ResumeStart(s, ok).Some?
    ensures Doomed(ResumeStart(s, ok).value)
  {
  }

  lemma LateStepDoomed(s: State, ok: bool)
    requires Doomed(s) && ResumeLate(s, ok).Some?
    ensures Doomed(ResumeLate(s, ok).value)
  {
  }

  lemma StepDoomed(s: State, a: Action)
    requires Doomed(s) && Next(s, a).Some?
    ensures Doomed(Next(s, a).value)
  {
    hide ResumeStart, ResumeLate;
    if a.StartResumes? {
      StartStepDoomed(s, a.ok);
    } else if a.LateResumes? {
      LateStepDoomed(s, a.ok);
    }
  }

  /** A stop that comes before `start` last looks at the flag keeps the bridge from ever starting. */
  lemma {:induction false} StopCancelsStart(run: seq<State>, acts: seq<Action>, i: nat, j: nat)
    requires IsRun(run, acts) && i <= j < |run| && run[i].late.AwaitingStart?
    requires run[i].start.Registering? || run[i].start.StartingAcp? || run[i].start.Declaring?
    ensures Doomed(run[j])
  {
    if i == j {
      StopIsSticky(run, acts, i);
    } else {
      StopCancelsStart(run, acts, i, j - 1);
      assert StepAt(run, acts, j - 1);
      StepDoomed(run[j - 1], acts[j - 1]);
    }
  }

  // ---------------------------------------------------------------- what each way through comes to

  /** Where these actions lead. */
  function Exec(s: State, acts: seq<Action>): Option<State>
    decreases acts
  {
    if acts == [] then Some(s)
    else
      match Next(s, acts[0])
      case None => None
      case Some(s') => Exec(s', acts[1..])
  }

  const FRESH := State(false, false, false, NotStarted, NotStopped, NotStopped, 0, 0, 0, 0)

  /** A new bridge whose `start` has been called, and whose first `n` awaits went well. */
  function Underway(n: nat): State
    requires n <= 4
  {
    var s := FRESH.(start := Registering);
    match n
    case 0 => s
    case 1 => s.(luwi := true, luwiAcquired := 1, start := StartingAcp)
    case 2 => s.(luwi := true, luwiAcquired := 1, acp := true, acpAcquired := 1, start := Declaring)
    case 3 => s.(luwi := true, luwiAcquired := 1, acp := true, acpAcquired := 1, start := SettingIdle)
    case _ => s.(luwi := true, luwiAcquired := 1, acp := true, acpAcquired := 1, start := Started)
  }

  /** When every call succeeds the bridge starts, acquiring the daemon session and then the ACP session. */
  lemma StartsStepByStep()
    ensures Next(FRESH, CallStart) == Some(Underway(0))
    ensures forall n: nat :: n < 4 ==> Next(Underway(n), StartResumes(true)) == Some(Underway(n + 1))
  {
  }

  lemma Exec1(s: State, a: Action)
    ensures Exec(s, [a]) == Next(s, a)
  {
    assert [a][1..] == [];
    if Next(s, a).Some? {
      assert Exec(Next(s, a).value, []) == Next(s, a);
    }
  }

  lemma ExecCons(s: State, a: Action, rest: seq<Action>)
    ensures Exec(s, [a] + rest) == match Next(s, a) case None => None case Some(s') => Exec(s', rest)
  {
    assert ([a] + rest)[1..] == rest;
  }

  lemma Exec3(s: State, a: Action, b: Action, c: Action)
    requires Next(s, a).Some? && Next(Next(s, a).value, b).Some?
    ensures Exec(s, [a, b, c]) == Next(Next(Next(s, a).value, b).value, c)
  {
    ExecCons(s, a, [b, c]);
    ExecCons(Next(s, a).value, b, [c]);
    Exec1(Next(Next(s, a).value, b).value, c);
    assert [a, b, c] == [a] + [b, c] && [b, c] == [b] + [c];
  }

  /**
    A call of `start` that fails: what had been acquired is closed, each session once, and the start is
    rejected with the error of that call.
   */
  lemma FailedStartCleansUp(n: nat)
    requires n < 4
    ensures n == 0 ==> Next(Underway(0), StartResumes(false)) == Some(FRESH.(start := Abandoned(false)))
    ensures n > 0 ==> Next(Underway(n), StartResumes(false)).Some?
    ensures n == 1 ==>
              Exec(Next(Underway(1), StartResumes(false)).value, [StartResumes(true)])
              == Some(FRESH.(stopping := true, start := Abandoned(false), luwiAcquired := 1, luwiCloses := 1))
    ensures n >= 2 ==>
              Exec(Next(Underway(n), StartResumes(false)).value, [StartResumes(true), StartResumes(true), StartResumes(true)])
              == Some(FRESH.(stopping := true, start := Abandoned(false), acpAcquired := 1, acpCloses := 1,
                             luwiAcquired := 1, luwiCloses := 1))
  {
    if n == 1 {
      Exec1(Next(Underway(1), StartResumes(false)).value, StartResumes(true));
    } else if n >= 2 {
      Exec3(Next(Underway(n), StartResumes(false)).value, StartResumes(true), StartResumes(true), StartResumes(true));
    }
  }

  /** A `stop` during `start`, noticed when the present call succeeds. */
  function StoppedDuring(n: nat): State
    requires n < 4
  {
    Underway(n).(stopping := true, late := AwaitingStart)
  }

  /**
    A stop made while one of the first three calls is under way: the call succeeds, the start closes what
    there is and is rejected with the cancellation, and the stop then succeeds with nothing left to do.
   */
  lemma StopDuringStart(n: nat)
    requires n < 3
    ensures Next(Underway(n), CallStop) == Some(StoppedDuring(n)) && Next(StoppedDuring(n), StartResumes(true)).Some?
    ensures var s := Next(StoppedDuring(n), StartResumes(true)).value;
            var closed := if n == 0 then Exec(s, [StartResumes(true)])
                          else Exec(s, [StartResumes(true), StartResumes(true), StartResumes(true)]);
            && closed.Some? && closed.value.start == Abandoned(true) && AllClosed(closed.value)
            && closed.value.luwiAcquired == 1 && closed.value.acpAcquired == (if n == 0 then 0 else 1)
            && Next(closed.value, LateResumes(true)).Some?
            && Next(closed.value, LateResumes(true)).value.late == Stopped(true)
  {
    var s := Next(StoppedDuring(n), StartResumes(true)).value;
    if n == 0 {
      Exec1(s, StartResumes(true));
    } else {
      assert s == Cancelled();
      hide Next, Underway, StoppedDuring;
      CleansUp();
    }
  }

  /** Both sessions are there, and `start` has begun to close them because of a stop. */
  function Cancelled(): State {
    State(true, false, true, CleaningUp(Cancelling, true, false), NotStopped, AwaitingStart, 1, 0, 1, 0)
  }

  lemma CleansUp()
    ensures var closed := State(true, false, false, Abandoned(true), NotStopped, AwaitingStart, 1, 1, 1, 1);
            && Exec(Cancelled(), [StartResumes(true), StartResumes(true), StartResumes(true)]) == Some(closed)
            && Next(closed, LateResumes(true)) == Some(closed.(late := Stopped(true)))
  {
    Exec3(Cancelled(), StartResumes(true), StartResumes(true), StartResumes(true));
  }

  /**
    A stop made before `start`: once its continuation has run, `start` forgets it. If `start` is called
    before that, the continuation puts the flag up again, and the start ends cancelled after its first call.
   */
  lemma StopBeforeStart()
    ensures Exec(FRESH, [CallStop, EarlyResumes, CallStart]) == Some(Underway(0).(early := Stopped(true)))
    ensures Exec(FRESH, [CallStop, CallStart, EarlyResumes]) == Some(Underway(0).(stopping := true, early := Stopped(true)))
    ensures Exec(Underway(0).(stopping := true, early := Stopped(true)), [StartResumes(true), StartResumes(true)])
            == Some(FRESH.(stopping := true, start := Abandoned(true), early := Stopped(true), luwiAcquired := 1, luwiCloses := 1))
  {
    Exec3(FRESH, CallStop, EarlyResumes, CallStart);
    Exec3(FRESH, CallStop, CallStart, EarlyResumes);
    var s := Underway(0).(stopping := true, early := Stopped(true));
    ExecCons(s, StartResumes(true), [StartResumes(true)]);
    Exec1(Next(s, StartResumes(true)).value, StartResumes(true));
    assert [StartResumes(true), StartResumes(true)] == [StartResumes(true)] + [StartResumes(true)];
  }

  /** A stop made during the last call comes too late to cancel it; it closes both sessions afterwards. */
  lemma StopAfterLastLook()
    ensures Next(Underway(3), CallStop) == Some(StoppedDuring(3))
    ensures Next(StoppedDuring(3), StartResumes(true)) == Some(Underway(4).(stopping := true, late := AwaitingStart))
  {
  }

  /**
    Stopping a started bridge cancels and closes the ACP session and then the daemon session. The stop
    succeeds exactly when both closes did; a rejected cancel does not matter.
   */
  lemma StopCloses(cancelOk: bool, acpOk: bool, luwiOk: bool)
    ensures Next(Underway(4), CallStop) == Some(Underway(4).(stopping := true, late := AwaitingStart))
    ensures var s := Underway(4).(stopping := true, late := AwaitingStart);
            && Next(s, LateResumes(true)) == Some(s.(acp := false, late := ShuttingDown(Cancelling, false)))
            && Exec(s.(acp := false, late := ShuttingDown(Cancelling, false)),
                    [LateResumes(cancelOk), LateResumes(acpOk), LateResumes(luwiOk)])
               == Some(s.(acp := false, luwi := false, acpCloses := 1, luwiCloses := 1, late := Stopped(acpOk && luwiOk)))
  {
    Exec3(Underway(4).(stopping := true, acp := false, late := ShuttingDown(Cancelling, false)),
          LateResumes(cancelOk), LateResumes(acpOk), LateResumes(luwiOk));
  }

  /** A close that throws during a cancelled start takes the cancellation's place, and the stop fails with it. */
  lemma CleanupFailureIsTold(acpOk: bool, luwiOk: bool)
    ensures var s := Next(StoppedDuring(2), StartResumes(true));
            && s.Some?
            && var closed := Exec(s.value, [StartResumes(true), StartResumes(acpOk), StartResumes(luwiOk)]);
               && closed.Some? && closed.value.start == Abandoned(acpOk && luwiOk) && AllClosed(closed.value)
               && Next(closed.value, LateResumes(true)).Some?
               && Next(closed.value, LateResumes(true)).value.late == Stopped(acpOk && luwiOk)
  {
    Exec3(Next(StoppedDuring(2), StartResumes(true)).value, StartResumes(true), StartResumes(acpOk), StartResumes(luwiOk));
  }
}
