/**
  The recovery coordinator as a machine over its two variables. One action is one uninterrupted
  piece of JavaScript: a request, the synchronous start of a recovery returning, a recovery
  settling, or one of the promise handlers chained to it.
 */
module RecoveryCoordinator {
  import opened Prelude

  /** Where one `runPending` chain is. */
  datatype Phase =
    | Entering   // inside the synchronous part of its first recovery; `active` is not assigned yet
    | Running    // awaiting a recovery
    | Rejected   // a recovery threw; `catch` has not run
    | Exited     // the loop is over; `finally` has not run

  /** `stack` holds the chains being entered, innermost last; `running` counts recoveries in progress. */
  datatype State = State(
    pending: bool, active: bool, allowed: bool,
    chains: map<nat, Phase>, stack: seq<nat>, next: nat,
    running: nat)

  datatype Action =
    | Request            // called from an event handler
    | Reenter            // called by a recovery from its synchronous part
    | Entered            // the synchronous part returns its promise
    | Done(chain: nat)
    | Throws(chain: nat)
    | Catch(chain: nat)
    | Finally(chain: nat)
    | Allow(b: bool)

  /** `active = runPending()`: the loop starts its first recovery at once. */
  function StartChain(s: State): State {
    s.(pending := false, chains := s.chains[s.next := Entering], stack := s.stack + [s.next], next := s.next + 1,
       running := s.running + 1)
  }

  function RequestBody(s: State): State {
    if !s.allowed then s
    else
      var s1 := s.(pending := true);
      if s.active then s1 else StartChain(s1)
  }

  /** The loop condition of `runPending` after a recovery. */
  function LoopAgain(s: State, chain: nat): State {
    if s.pending && s.allowed then s.(pending := false, running := s.running + 1)
    else s.(chains := s.chains[chain := Exited])
  }

  predicate Is(s: State, chain: nat, phase: Phase) {
    chain in s.chains && s.chains[chain] == phase
  }

  /** Nothing else runs while the synchronous part of a recovery does. */
  function Next(s: State, a: Action): Option<State> {
    match a
    case Request => if s.stack == [] then Some(RequestBody(s)) else None
    case Reenter => if s.stack != [] then Some(RequestBody(s)) else None
    case Entered =>
      if s.stack != [] then
        var c := s.stack[|s.stack| - 1];
        Some(s.(chains := s.chains[c := Running], stack := s.stack[..|s.stack| - 1], active := true))
      else None
    case Done(c) =>
      if s.stack == [] && Is(s, c, Running) && s.running > 0 then
        Some(LoopAgain(s.(running := s.running - 1), c))
      else None
    case Throws(c) =>
      if s.stack == [] && Is(s, c, Running) && s.running > 0 then
        Some(s.(running := s.running - 1, chains := s.chains[c := Rejected]))
      else None
    case Catch(c) =>
      if s.stack == [] && Is(s, c, Rejected) then
        Some(s.(pending := false, chains := s.chains[c := Exited]))
      else None
    case Finally(c) =>
      if s.stack == [] && Is(s, c, Exited) then
        var s1 := s.(active := false, chains := s.chains - {c});
        Some(if s1.pending && s1.allowed then StartChain(s1) else s1)
      else None
    case Allow(b) => if s.stack == [] then Some(s.(allowed := b)) else None
  }

  ghost predicate StepAt(run: seq<State>, acts: seq<Action>, i: int)
    requires |run| == |acts| + 1 && 0 <= i < |acts|
  {
    Next(run[i], acts[i]) == Some(run[i + 1])
  }

  ghost predicate IsRun(run: seq<State>, acts: seq<Action>) {
    && |run| == |acts| + 1
    && run[0].chains == map[] && run[0].stack == [] && run[0].running == 0
    && !run[0].pending && !run[0].active
    && forall i :: 0 <= i < |acts| ==> StepAt(run, acts, i)
  }

  // ---------------------------------------------------------------- no lost wake-up

  ghost predicate Live(s: State) {
    && (forall c :: c in s.chains ==> c < s.next)
    && (forall i :: 0 <= i < |s.stack| ==> Is(s, s.stack[i], Entering))
    && (forall i, j :: 0 <= i < j < |s.stack| ==> s.stack[i] < s.stack[j])
    && (s.active ==> s.chains != map[])
  }

  lemma StartKeepsLive(s: State)
    requires Live(s) && s.pending && s.allowed
    ensures Live(StartChain(s))
  {
    var s' := StartChain(s);
    assert s.next in s'.chains;
    forall i | 0 <= i < |s'.stack| ensures Is(s', s'.stack[i], Entering) && (i < |s.stack| ==> s'.stack[i] < s.next) {
      if i < |s.stack| {
        assert Is(s, s.stack[i], Entering);
      }
    }
  }

  lemma RequestKeepsLive(s: State)
    requires Live(s)
    ensures Live(RequestBody(s))
  {
    if s.allowed && !s.active {
      StartKeepsLive(s.(pending := true));
    }
  }

  lemma EnteredKeepsLive(s: State)
    requires Live(s) && Next(s, Entered).Some?
    ensures Live(Next(s, Entered).value)
  {
    var s' := Next(s, Entered).value;
    var c := s.stack[|s.stack| - 1];
    assert Is(s, c, Entering) && c in s'.chains;
    forall i | 0 <= i < |s'.stack| ensures Is(s', s'.stack[i], Entering) {
      assert s.stack[i] < c && Is(s, s.stack[i], Entering);
    }
  }

  lemma StepKeepsLive(s: State, a: Action)
    requires Live(s) && Next(s, a).Some?
    ensures Live(Next(s, a).value)
  {
    if a.Request? || a.Reenter? {
      RequestKeepsLive(s);
    } else if a.Entered? {
      EnteredKeepsLive(s);
    } else if a.Finally? {
      var s1 := s.(active := false, chains := s.chains - {a.chain});
      if s1.pending && s1.allowed {
        StartKeepsLive(s1);
      }
    } else if !a.Allow? {
      assert a.chain in Next(s, a).value.chains;
    }
  }

  lemma {:induction false} RunLive(run: seq<State>, acts: seq<Action>, i: nat)
    requires IsRun(run, acts) && i < |run|
    ensures Live(run[i])
  {
    if i > 0 {
      RunLive(run, acts, i - 1);
      assert StepAt(run, acts, i - 1);
      StepKeepsLive(run[i - 1], acts[i - 1]);
    }
  }

  /** A request, from an event handler or from within a recovery, while recovery is allowed. */
  predicate Requests(s: State, a: Action) {
    (a.Request? || a.Reenter?) && s.allowed
  }

  /** The step starts a recovery: it adds a chain, or a chain goes on to another one. */
  predicate Starts(s: State, a: Action, s': State) {
    || (exists c :: c in s'.chains && c !in s.chains)
    || (a.Done? && Is(s', a.chain, Running))
  }

  /** What may end a request without a recovery: a handled failure, or recovery disallowed. */
  predicate Excuses(a: Action) {
    a.Catch? || a == Allow(false)
  }

  ghost predicate ServedAt(run: seq<State>, acts: seq<Action>, k: nat)
    requires |run| == |acts| + 1 && k < |acts|
  {
    Starts(run[k], acts[k], run[k + 1]) || Excuses(acts[k])
  }

  /** A recovery is asked for, and a chain is there to see it. */
  predicate Awaited(s: State) {
    s.pending && s.allowed && s.chains != map[]
  }

  lemma RequestIsAwaited(s: State, a: Action)
    requires Live(s) && Next(s, a).Some? && Requests(s, a)
    ensures Starts(s, a, Next(s, a).value) || Awaited(Next(s, a).value)
  {
    if !s.active {
      assert s.next in Next(s, a).value.chains && s.next !in s.chains;
    }
  }

  lemma StaysAwaited(s: State, a: Action)
    requires Live(s) && Next(s, a).Some? && Awaited(s)
    ensures Starts(s, a, Next(s, a).value) || Excuses(a) || Awaited(Next(s, a).value)
  {
    var s' := Next(s, a).value;
    if a.Request? || a.Reenter? {
      RequestIsAwaited(s, a);
    } else if a.Finally? {
      assert s.next in s'.chains && s.next !in s.chains;
    } else if a.Entered? {
      assert s.stack[|s.stack| - 1] in s'.chains;
    } else if a.Throws? {
      assert a.chain in s'.chains;
    }
  }

  lemma {:induction false} AwaitedUntil(run: seq<State>, acts: seq<Action>, i: nat, j: nat)
    requires IsRun(run, acts) && i < j < |run| && Requests(run[i], acts[i])
    ensures Awaited(run[j]) || exists k :: i <= k < j && ServedAt(run, acts, k)
    decreases j
  {
    hide Next, Live, Awaited, Starts;
    assert StepAt(run, acts, j - 1);
    RunLive(run, acts, j - 1);
    if j == i + 1 {
      RequestIsAwaited(run[i], acts[i]);
      assert ServedAt(run, acts, i) || Awaited(run[j]);
    } else {
      AwaitedUntil(run, acts, i, j - 1);
      if Awaited(run[j - 1]) {
        StaysAwaited(run[j - 1], acts[j - 1]);
        assert ServedAt(run, acts, j - 1) || Awaited(run[j]);
      }
    }
  }

  /**
    No lost wake-up: whenever everything has come to rest after a request, a recovery was started
    by the request or after it, or in between a failure was handled or recovery disallowed.
   */
  lemma NoLostWakeUp(run: seq<State>, acts: seq<Action>, i: nat, j: nat)
    requires IsRun(run, acts) && i < j < |run| && Requests(run[i], acts[i]) && run[j].chains == map[]
    ensures exists k :: i <= k < j && ServedAt(run, acts, k)
  {
    AwaitedUntil(run, acts, i, j);
  }

  /**
    While a request has not been served or excused, the next recovery to settle normally, or the next
    `finally`, starts another.
   */
  lemma OwedIsServed(run: seq<State>, acts: seq<Action>, i: nat, j: nat)
    requires IsRun(run, acts) && i < j < |acts| && Requests(run[i], acts[i])
    requires forall k :: i <= k < j ==> !ServedAt(run, acts, k)
    requires acts[j].Done? || acts[j].Finally?
    ensures Starts(run[j], acts[j], run[j + 1])
  {
    AwaitedUntil(run, acts, i, j);
    assert StepAt(run, acts, j);
    RunLive(run, acts, j);
    StaysAwaited(run[j], acts[j]);
    if acts[j].Finally? {
      assert run[j].next in run[j + 1].chains && run[j].next !in run[j].chains;
    }
  }

  /** No recovery starts while recovery is disallowed. */
  lemma StartsOnlyWhenAllowed(run: seq<State>, acts: seq<Action>, i: nat)
    requires IsRun(run, acts) && i < |acts| && Starts(run[i], acts[i], run[i + 1])
    ensures run[i].allowed
  {
    assert StepAt(run, acts, i);
    RunLive(run, acts, i);
    if acts[i].Done? || acts[i].Throws? || acts[i].Catch? {
      assert run[i + 1].chains.Keys == run[i].chains.Keys;
    }
  }

  function RequestsIn(run: seq<State>, acts: seq<Action>, n: nat): nat
    requires |run| == |acts| + 1 && n <= |acts|
  {
    if n == 0 then 0 else RequestsIn(run, acts, n - 1) + (if Requests(run[n - 1], acts[n - 1]) then 1 else 0)
  }

  function StartsIn(run: seq<State>, acts: seq<Action>, n: nat): nat
    requires |run| == |acts| + 1 && n <= |acts|
  {
    if n == 0 then 0 else StartsIn(run, acts, n - 1) + (if Starts(run[n - 1], acts[n - 1], run[n]) then 1 else 0)
  }

  lemma StepPays(s: State, a: Action)
    requires Live(s) && Next(s, a).Some?
    ensures var s' := Next(s, a).value;
            (if Starts(s, a, s') then 1 else 0) + (if s'.pending then 1 else 0)
            <= (if s.pending then 1 else 0) + (if Requests(s, a) then 1 else 0)
  {
    if a.Done? || a.Throws? || a.Catch? {
      assert Next(s, a).value.chains.Keys == s.chains.Keys;
    }
  }

  lemma {:induction false} NoMorePendingThanRequested(run: seq<State>, acts: seq<Action>, i: nat)
    requires IsRun(run, acts) && i < |run|
    ensures StartsIn(run, acts, i) + (if run[i].pending then 1 else 0) <= RequestsIn(run, acts, i)
  {
    if i > 0 {
      NoMorePendingThanRequested(run, acts, i - 1);
      RunLive(run, acts, i - 1);
      assert StepAt(run, acts, i - 1);
      StepPays(run[i - 1], acts[i - 1]);
    }
  }

  /** Requests are coalesced: never more recoveries than requests, and none without one. */
  lemma NoMoreStartsThanRequests(run: seq<State>, acts: seq<Action>, i: nat)
    requires IsRun(run, acts) && i < |run|
    ensures StartsIn(run, acts, i) <= RequestsIn(run, acts, i)
  {
    NoMorePendingThanRequested(run, acts, i);
  }

  lemma {:induction false} StaysDropped(run: seq<State>, acts: seq<Action>, i: nat, j: nat)
    requires IsRun(run, acts) && i < j < |run| && acts[i].Catch?
    requires forall k :: i < k < j ==> !Requests(run[k], acts[k])
    ensures !run[j].pending
    decreases j
  {
    assert StepAt(run, acts, j - 1);
    if j > i + 1 {
      StaysDropped(run, acts, i, j - 1);
    }
  }

  /** A handled failure drops what was asked for: until a new request no recovery starts. */
  lemma FailureDropsRequests(run: seq<State>, acts: seq<Action>, i: nat, j: nat)
    requires IsRun(run, acts) && i < j < |acts| && acts[i].Catch?
    requires forall k :: i < k <= j ==> !Requests(run[k], acts[k])
    ensures !Starts(run[j], acts[j], run[j + 1])
  {
    StaysDropped(run, acts, i, j);
    assert StepAt(run, acts, j);
    if acts[j].Done? || acts[j].Throws? || acts[j].Catch? {
      assert run[j + 1].chains.Keys == run[j].chains.Keys;
    }
    RunLive(run, acts, j);
  }

  // ---------------------------------------------------------------- nothing hangs

  /** Outside the synchronous part of a recovery every chain can take its next step. */
  lemma ChainsGoOn(run: seq<State>, acts: seq<Action>, i: nat, c: nat)
    requires IsRun(run, acts) && i < |run| && run[i].stack == [] && c in run[i].chains && run[i].chains[c] != Entering
    requires run[i].chains[c] == Running ==> run[i].running > 0
    ensures match run[i].chains[c]
            case Running => Next(run[i], Done(c)).Some? && Next(run[i], Throws(c)).Some? && Is(Next(run[i], Throws(c)).value, c, Rejected)
            case Rejected => Next(run[i], Catch(c)).Some? && Is(Next(run[i], Catch(c)).value, c, Exited)
            case Exited => Next(run[i], Finally(c)).Some? && c !in Next(run[i], Finally(c)).value.chains
            case Entering => true
    ensures run[i].chains[c] == Running && !run[i].pending ==> Is(Next(run[i], Done(c)).value, c, Exited)
  {
    RunLive(run, acts, i);
  }

  /** Requests are always heard, and whether recovery is allowed may change at any time. */
  lemma AlwaysHeard(s: State, b: bool)
    ensures s.stack == [] ==> Next(s, Request).Some?
    ensures s.stack == [] ==> Next(s, Allow(b)).Some? && Next(s, Allow(b)).value.allowed == b
    ensures s.stack != [] ==> Next(s, Entered).Some? && Next(s, Reenter).Some?
  {
  }

  // ---------------------------------------------------------------- overlap

  /** A request that lands while `active` is still unassigned, from inside a recovery. */
  predicate UnguardedReentry(s: State, a: Action) {
    a.Reenter? && s.allowed && !s.active
  }

  /** Without such a request there is one chain at most, and one recovery at most. */
  ghost predicate Single(s: State) {
    && (forall c, d :: c in s.chains && d in s.chains ==> c == d)
    && (forall c :: c in s.chains ==> c < s.next)
    && |s.stack| <= 1
    && (forall i :: 0 <= i < |s.stack| ==> Is(s, s.stack[i], Entering))
    && (forall c :: c in s.chains && s.chains[c] == Entering ==> s.stack == [c])
    && (s.chains != map[] && s.stack == [] ==> s.active)
    && (s.stack != [] ==> !s.active)
    && (s.chains == map[] ==> s.running == 0 && !s.active)
    && (forall c :: c in s.chains ==> s.running == if s.chains[c] == Entering || s.chains[c] == Running then 1 else 0)
  }

  lemma StepKeepsSingle(s: State, a: Action)
    requires Single(s) && Next(s, a).Some? && !UnguardedReentry(s, a)
    ensures Single(Next(s, a).value)
  {
    if a.Finally? || a.Done? || a.Throws? || a.Catch? {
      assert a.chain in s.chains;
    } else if a.Entered? {
      assert Is(s, s.stack[0], Entering);
    }
  }

  lemma {:induction false} RunSingle(run: seq<State>, acts: seq<Action>, i: nat)
    requires IsRun(run, acts) && i < |run|
    requires forall j :: 0 <= j < i ==> !UnguardedReentry(run[j], acts[j])
    ensures Single(run[i])
  {
    if i > 0 {
      RunSingle(run, acts, i - 1);
      assert StepAt(run, acts, i - 1);
      StepKeepsSingle(run[i - 1], acts[i - 1]);
    }
  }

  lemma SingleRunsOne(s: State)
    requires Single(s)
    ensures s.running <= 1
  {
    if s.chains != map[] {
      var c :| c in s.chains;
    }
  }

  /** Up to the first unguarded re-entry a chain being entered has its recovery running. */
  lemma ReentryOverlaps(s: State, a: Action)
    requires Single(s) && Next(s, a).Some? && UnguardedReentry(s, a)
    ensures Next(s, a).value.running == 2
  {
    assert Is(s, s.stack[0], Entering);
  }

  lemma {:induction false} FirstReentry(run: seq<State>, acts: seq<Action>, n: nat) returns (k: nat)
    requires |run| == |acts| + 1 && n <= |acts| && exists j :: 0 <= j < n && UnguardedReentry(run[j], acts[j])
    ensures k < n && UnguardedReentry(run[k], acts[k])
    ensures forall j :: 0 <= j < k ==> !UnguardedReentry(run[j], acts[j])
  {
    if exists j :: 0 <= j < n - 1 && UnguardedReentry(run[j], acts[j]) {
      k := FirstReentry(run, acts, n - 1);
    } else {
      k := n - 1;
    }
  }

  /**
    Two recoveries overlap in a run exactly when a recovery calls `request` from its synchronous
    part, while recovery is allowed and before `active` is assigned.
   */
  lemma OverlapExactlyWhen(run: seq<State>, acts: seq<Action>)
    requires IsRun(run, acts)
    ensures (exists i :: 0 <= i < |run| && run[i].running >= 2) <==>
            (exists j :: 0 <= j < |acts| && UnguardedReentry(run[j], acts[j]))
  {
    if exists j :: 0 <= j < |acts| && UnguardedReentry(run[j], acts[j]) {
      var k := FirstReentry(run, acts, |acts|);
      RunSingle(run, acts, k);
      assert StepAt(run, acts, k);
      ReentryOverlaps(run[k], acts[k]);
      assert run[k + 1].running >= 2;
    } else {
      forall i | 0 <= i < |run| ensures run[i].running <= 1 {
        RunSingle(run, acts, i);
        SingleRunsOne(run[i]);
      }
    }
  }
}
