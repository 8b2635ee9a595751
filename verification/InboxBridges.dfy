/**
  The inbox bridges and the durable messages they work on. A bridge may crash at every await, a
  call may land and its reply be lost, a message is offered again until it is terminal, and the
  rest of the system (the agent itself, the timeout sweep, a dead bridge's late request) may
  move any message at any time, always by the daemon's own transition table.
 */
module InboxBridges {
  import opened Prelude

  datatype Status = Queued | Delivered | Acknowledged | Processing | Responded | Rejected | TimedOut | Failed {
    predicate Terminal() { Responded? || Rejected? || TimedOut? || Failed? }

    /** The message has been handed to an agent, or is past that. */
    predicate Begun() { Processing? || Terminal() }
  }

  predicate Allowed(current: Status, target: Status) {
    match current
    case Queued => target.Delivered? || target.TimedOut? || target.Failed?
    case Delivered => !target.Queued? && !target.Delivered?
    case Acknowledged => target.Begun()
    case Processing => target.Terminal()
    case _ => false
  }

  /** `starts` counts how often the executor or the ACP prompt was started for the message. */
  datatype Message = Message(status: Status, starts: nat)

  datatype Kind = Native | DeepSeek

  /** What `processRequest` does once `completeSafely` is over. */
  datatype After = ReturnNow | Finish | Rethrow

  datatype Point =
    | Read | Acknowledge | Promote
    | MarkBusy                       // setSessionStatus before the run
    | Work                           // executor.run, acp.prompt
    | Recheck                        // getMessage after a native run
    | Complete(target: Status, after: After)
    | Verify(after: After)           // getMessage in the catch of completeSafely
    | MarkIdle(ok: bool)             // the finally block; `ok` when a return is pending
  {
    predicate Asks() { !MarkBusy? && !Work? && !MarkIdle? }
  }

  /** What the daemon answered; a refusal reaches the bridge as an exception. */
  datatype Answer = Pending | Reply(status: Status) | Refused

  datatype Pc =
    | Resting
    | Waiting(id: nat, point: Point, answer: Answer)
    | Settled(id: nat, reached: bool, threw: bool)   // `reached`: got past the processing check

  datatype Bridge = Bridge(kind: Kind, stopping: bool, pc: Pc)

  datatype State = State(messages: map<nat, Message>, bridges: map<nat, Bridge>)

  datatype StopReason = EndTurn | MaxTokens | MaxTurnRequests | Refusal | Cancelled

  datatype Event =
    | Returned(oversized: bool)                      // the call resolved with the daemon's answer
    | Threw                                          // it rejected, landed or not
    | Ran(reason: StopReason, text: string)          // the run ended

  datatype Action =
    | Create(id: nat)
    | Move(id: nat, target: Status)
    | Spawn(bridge: nat, kind: Kind)
    | Crash(bridge: nat)
    | Stop(bridge: nat)
    | Claim(bridge: nat, id: nat)
    | Land(bridge: nat)
    | Resume(bridge: nat, event: Event)

  /** `terminalResponse`: the state its action asks for. The text is already trimmed. */
  function TerminalTarget(reason: StopReason, text: string): Status {
    if reason.EndTurn? && text != "" then Responded
    else if reason.Refusal? then Rejected
    else Failed
  }

  // ---------------------------------------------------------------- processRequest, await by await

  function At(id: nat, point: Point): Pc {
    Waiting(id, point, Pending)
  }

  function Finally(b: Bridge, id: nat, ok: bool): Pc {
    if b.stopping then Settled(id, true, !ok) else At(id, MarkIdle(ok))
  }

  function Leave(b: Bridge, id: nat, after: After): Pc {
    match after
    case ReturnNow => Settled(id, true, false)
    case Finish => Finally(b, id, true)
    case Rethrow => Finally(b, id, false)
  }

  function LeaveThrowing(b: Bridge, id: nat, after: After): Pc {
    if after.ReturnNow? then Settled(id, true, true) else Finally(b, id, false)
  }

  function OnAnswer(b: Bridge, id: nat, point: Point, status: Status, oversized: bool): Pc {
    match point
    case Read =>
      if status.Processing? then At(id, Complete(Failed, ReturnNow))
      else if status.Delivered? then At(id, Acknowledge)
      else if status.Acknowledged? then At(id, Promote)
      else Settled(id, false, false)
    case Acknowledge => if status.Acknowledged? then At(id, Promote) else Settled(id, false, false)
    case Promote =>
      if !status.Processing? then Settled(id, false, false)
      else if b.kind.Native? && oversized then At(id, Complete(Failed, ReturnNow))
      else At(id, MarkBusy)
    case Recheck => if status.Terminal() then Finally(b, id, true) else At(id, Complete(Failed, Finish))
    case Complete(_, after) => Leave(b, id, after)
    case Verify(after) => if status.Terminal() then Leave(b, id, after) else LeaveThrowing(b, id, after)
    case _ => Resting
  }

  function OnThrow(b: Bridge, id: nat, point: Point): Pc {
    match point
    case Read | Acknowledge | Promote => Settled(id, false, true)
    case MarkBusy => Settled(id, true, true)
    case Work =>
      if b.kind.DeepSeek? && b.stopping then Finally(b, id, true) else At(id, Complete(Failed, Rethrow))
    case Recheck => Finally(b, id, false)
    case Complete(_, after) => At(id, Verify(after))
    case Verify(after) => LeaveThrowing(b, id, after)
    case MarkIdle(_) => Settled(id, true, true)
  }

  function OnRun(b: Bridge, id: nat, reason: StopReason, text: string): Pc {
    if b.kind.Native? then At(id, Recheck)
    else if b.stopping && reason.Cancelled? then Finally(b, id, true)
    else At(id, Complete(TerminalTarget(reason, text), Finish))
  }

  function OnEvent(b: Bridge, e: Event): Option<Pc>
    requires b.pc.Waiting?
  {
    var Waiting(id, point, answer) := b.pc;
    match e
    case Returned(oversized) =>
      if point.MarkBusy? then Some(At(id, Work))
      else if point.MarkIdle? then Some(Settled(id, true, !point.ok))
      else if point.Work? || answer.Pending? then None
      else if answer.Refused? then Some(OnThrow(b, id, point))
      else Some(OnAnswer(b, id, point, answer.status, oversized))
    case Threw => Some(OnThrow(b, id, point))
    case Ran(reason, text) => if point.Work? then Some(OnRun(b, id, reason, text)) else None
  }

  // ---------------------------------------------------------------- the daemon

  /** The state a call asks for, if it is not a mere read. */
  function Asked(point: Point): Option<Status> {
    match point
    case Acknowledge => Some(Acknowledged)
    case Promote => Some(Processing)
    case Complete(target, _) => Some(target)
    case _ => None
  }

  /** One atomic transition; the same state again is reported unchanged, not refused. */
  function Apply(current: Status, asked: Option<Status>): (Status, Answer) {
    match asked
    case None => (current, Reply(current))
    case Some(target) =>
      if current == target || Allowed(current, target) then (target, Reply(target)) else (current, Refused)
  }

  function WithPc(s: State, n: nat, pc: Pc): State
    requires n in s.bridges
  {
    s.(bridges := s.bridges[n := s.bridges[n].(pc := pc)])
  }

  function LandCall(s: State, n: nat): Option<State>
    requires n in s.bridges
  {
    var pc := s.bridges[n].pc;
    if pc.Waiting? && pc.point.Asks() && pc.answer.Pending? && pc.id in s.messages then
      var m := s.messages[pc.id];
      var (status, answer) := Apply(m.status, Asked(pc.point));
      Some(WithPc(s, n, pc.(answer := answer)).(messages := s.messages[pc.id := m.(status := status)]))
    else None
  }

  /** Entering `Work` starts the executor or the prompt. */
  function ResumeBridge(s: State, n: nat, e: Event): Option<State>
    requires n in s.bridges
  {
    var b := s.bridges[n];
    if !b.pc.Waiting? || b.pc.id !in s.messages then None
    else
      match OnEvent(b, e)
      case None => None
      case Some(pc) =>
        var s1 := WithPc(s, n, pc);
        var m := s.messages[b.pc.id];
        Some(if b.pc.point.MarkBusy? && pc.Waiting? then s1.(messages := s.messages[b.pc.id := m.(starts := m.starts + 1)]) else s1)
  }

  function Next(s: State, a: Action): Option<State> {
    match a
    case Create(id) => if id in s.messages then None else Some(s.(messages := s.messages[id := Message(Queued, 0)]))
    case Move(id, target) =>
      if id in s.messages && Allowed(s.messages[id].status, target)
      then Some(s.(messages := s.messages[id := s.messages[id].(status := target)])) else None
    case Spawn(n, kind) => if n in s.bridges then None else Some(s.(bridges := s.bridges[n := Bridge(kind, false, Resting)]))
    case Crash(n) => Some(s.(bridges := s.bridges - {n}))
    case Stop(n) => if n in s.bridges then Some(s.(bridges := s.bridges[n := s.bridges[n].(stopping := true)])) else None
    case Claim(n, id) =>
      if n in s.bridges && id in s.messages && !s.bridges[n].pc.Waiting? && !s.bridges[n].stopping
      then Some(WithPc(s, n, At(id, Read))) else None
    case Land(n) => if n in s.bridges then LandCall(s, n) else None
    case Resume(n, e) => if n in s.bridges then ResumeBridge(s, n, e) else None
  }

  ghost predicate StepAt(run: seq<State>, acts: seq<Action>, i: int)
    requires |run| == |acts| + 1 && 0 <= i < |acts|
  {
    Next(run[i], acts[i]) == Some(run[i + 1])
  }

  ghost predicate IsRun(run: seq<State>, acts: seq<Action>) {
    && |run| == |acts| + 1
    && run[0] == State(map[], map[])
    && forall i :: 0 <= i < |acts| ==> StepAt(run, acts, i)
  }

  // ---------------------------------------------------------------- who holds a message

  /** The bridge has seen the message before anyone began it, and has not yet started it itself. */
  predicate Holding(pc: Pc, id: nat) {
    && pc.Waiting? && pc.id == id
    && (pc.point.Acknowledge? || pc.point.Promote? || pc.point.MarkBusy?
        || (pc.point.Read? && pc.answer.Reply? && (pc.answer.status.Delivered? || pc.answer.status.Acknowledged?)))
  }

  predicate HoldingAt(s: State, n: nat, id: nat) {
    n in s.bridges && Holding(s.bridges[n].pc, id)
  }

  /** No two bridges hold one message. */
  ghost predicate Exclusive(s: State) {
    forall n, k, id :: HoldingAt(s, n, id) && HoldingAt(s, k, id) ==> n == k
  }

  /** Nobody has begun the message. */
  predicate Fresh(s: State, id: nat) {
    id in s.messages && !s.messages[id].status.Begun()
  }

  /** No two bridges hold one message that nobody has begun. */
  ghost predicate FreshExclusive(s: State) {
    forall n, k, id :: HoldingAt(s, n, id) && HoldingAt(s, k, id) && Fresh(s, id) ==> n == k
  }

  // ---------------------------------------------------------------- what every step keeps

  /** The message only ever moves forward. */
  predicate Forward(m: Message, m': Message) {
    && (m.status == m'.status || Allowed(m.status, m'.status))
    && m.starts <= m'.starts
  }

  /** What the bridge was told is still true of the message, and what it concluded is too. */
  ghost predicate Sound(b: Bridge, m: Message) {
    match b.pc
    case Resting => true
    case Settled(_, reached, threw) => reached && !threw ==> m.status.Terminal() || (b.kind.DeepSeek? && b.stopping)
    case Waiting(_, point, answer) =>
      && (answer.Reply? && answer.status.Begun() ==> m.status.Begun())
      && (answer.Reply? && answer.status.Terminal() ==> m.status.Terminal())
      && (answer.Reply? && Asked(point).Some? ==> answer.status == Asked(point).value)
      && (point.MarkBusy? ==> m.status.Begun())
      && (Holding(b.pc, b.pc.id) ==> !m.status.Queued?)
      && ((point.Acknowledge? || point.Promote?) && answer.Refused? ==> m.status.Begun())
      && (point.Complete? ==> point.target.Terminal() && (b.kind.Native? ==> point.target.Failed?))
      && (point.MarkIdle? && point.ok ==> m.status.Terminal())
  }

  ghost predicate SoundAt(s: State, n: nat)
    requires n in s.bridges
  {
    var b := s.bridges[n];
    b.pc.Resting? || (b.pc.id in s.messages && Sound(b, s.messages[b.pc.id]))
  }

  ghost predicate StartedIsBegun(s: State, id: nat)
    requires id in s.messages
  {
    s.messages[id].starts > 0 ==> s.messages[id].status.Begun()
  }

  ghost predicate AllSound(s: State) {
    && (forall n :: n in s.bridges ==> SoundAt(s, n))
    && (forall id :: id in s.messages ==> StartedIsBegun(s, id))
  }

  lemma ForwardKeepsSound(b: Bridge, m: Message, m': Message)
    requires Sound(b, m) && Forward(m, m')
    ensures Sound(b, m')
    ensures m.status.Begun() ==> m'.status.Begun()
  {
  }

  lemma LandKeepsSound(b: Bridge, m: Message)
    requires b.pc.Waiting? && b.pc.point.Asks() && Sound(b, m)
    ensures var (status, answer) := Apply(m.status, Asked(b.pc.point));
            Forward(m, m.(status := status)) && Sound(b.(pc := b.pc.(answer := answer)), m.(status := status))
  {
  }

  lemma ResumeKeepsSound(b: Bridge, m: Message, e: Event)
    requires b.pc.Waiting? && Sound(b, m) && OnEvent(b, e).Some?
    ensures Sound(b.(pc := OnEvent(b, e).value), m)
    ensures var pc := OnEvent(b, e).value; pc.Resting? || pc.id == b.pc.id
  {
  }

  ghost predicate AllForward(s: State, s': State) {
    forall i :: i in s.messages ==> i in s'.messages && Forward(s.messages[i], s'.messages[i])
  }

  lemma StaysSound(s: State, s': State, k: nat)
    requires k in s.bridges && k in s'.bridges && s'.bridges[k] == s.bridges[k] && SoundAt(s, k) && AllForward(s, s')
    ensures SoundAt(s', k)
  {
    var b := s.bridges[k];
    if !b.pc.Resting? {
      ForwardKeepsSound(b, s.messages[b.pc.id], s'.messages[b.pc.id]);
    }
  }

  lemma StepsForward(s: State, a: Action)
    requires AllSound(s) && Next(s, a).Some?
    ensures var s' := Next(s, a).value;
            AllForward(s, s') && forall id :: id in s'.messages ==> StartedIsBegun(s', id)
  {
    hide OnEvent;
    var s' := Next(s, a).value;
    if a.Land? {
      assert SoundAt(s, a.bridge);
      var b := s.bridges[a.bridge];
      LandKeepsSound(b, s.messages[b.pc.id]);
    } else if a.Resume? {
      assert SoundAt(s, a.bridge);
    }
    forall id | id in s'.messages ensures StartedIsBegun(s', id) {
      if id in s.messages {
        assert StartedIsBegun(s, id);
      }
    }
  }

  lemma LandActorSound(s: State, n: nat)
    requires AllSound(s) && n in s.bridges && LandCall(s, n).Some?
    ensures n in LandCall(s, n).value.bridges && SoundAt(LandCall(s, n).value, n)
  {
    assert SoundAt(s, n);
    var b := s.bridges[n];
    LandKeepsSound(b, s.messages[b.pc.id]);
  }

  lemma ResumeActorSound(s: State, n: nat, e: Event)
    requires AllSound(s) && n in s.bridges && ResumeBridge(s, n, e).Some?
    ensures n in ResumeBridge(s, n, e).value.bridges && SoundAt(ResumeBridge(s, n, e).value, n)
  {
    hide OnEvent;
    assert SoundAt(s, n);
    var b := s.bridges[n];
    ResumeKeepsSound(b, s.messages[b.pc.id], e);
  }

  lemma StepKeepsSound(s: State, a: Action)
    requires AllSound(s) && Next(s, a).Some?
    ensures AllSound(Next(s, a).value)
  {
    hide OnEvent, Sound, Apply, Forward;
    var s' := Next(s, a).value;
    StepsForward(s, a);
    forall n | n in s'.bridges ensures SoundAt(s', n) {
      if n in s.bridges && s'.bridges[n] == s.bridges[n] {
        StaysSound(s, s', n);
      } else if a.Land? {
        LandActorSound(s, n);
      } else if a.Resume? {
        ResumeActorSound(s, n, a.event);
      } else {
        NewPcSound(s, a, n);
      }
    }
  }

  lemma NewPcSound(s: State, a: Action, n: nat)
    requires AllSound(s) && Next(s, a).Some? && (a.Spawn? || a.Stop? || a.Claim?) && a.bridge == n
    requires n in Next(s, a).value.bridges
    ensures SoundAt(Next(s, a).value, n)
  {
    if n in s.bridges {
      assert SoundAt(s, n);
    }
  }

  lemma {:induction false} RunSound(run: seq<State>, acts: seq<Action>, i: nat)
    requires IsRun(run, acts) && i < |run|
    ensures AllSound(run[i])
  {
    if i > 0 {
      RunSound(run, acts, i - 1);
      assert StepAt(run, acts, i - 1);
      StepKeepsSound(run[i - 1], acts[i - 1]);
    }
  }

  /**
    In every run, with crashes, redelivery and lost replies anywhere: when `processRequest` has
    returned normally after reaching processing, the message is terminal. The one exception is a
    DeepSeek bridge that is stopping.
   */
  lemma ReturnedMeansTerminal(run: seq<State>, acts: seq<Action>, i: nat, n: nat)
    requires IsRun(run, acts) && i < |run| && n in run[i].bridges
    requires var pc := run[i].bridges[n].pc; pc.Settled? && pc.reached && !pc.threw
    ensures var b := run[i].bridges[n];
            b.pc.id in run[i].messages
            && (run[i].messages[b.pc.id].status.Terminal() || (b.kind.DeepSeek? && b.stopping))
  {
    RunSound(run, acts, i);
    assert SoundAt(run[i], n);
  }

  // ---------------------------------------------------------------- at most once

  ghost predicate Once(s: State) {
    && (forall id :: id in s.messages ==> s.messages[id].starts <= 1)
    && (forall n, id :: HoldingAt(s, n, id) ==> id in s.messages && s.messages[id].starts == 0)
  }

  /** Work is started only by a bridge that held the message. */
  lemma StarterHeld(s: State, a: Action, id: nat)
    requires Next(s, a).Some? && id in s.messages && Next(s, a).value.messages[id].starts != s.messages[id].starts
    ensures a.Resume? && HoldingAt(s, a.bridge, id) && !HoldingAt(Next(s, a).value, a.bridge, id)
    ensures Next(s, a).value.messages[id].starts == s.messages[id].starts + 1
  {
  }

  lemma HoldsAfterLanding(s: State, n: nat, id: nat)
    requires AllSound(s) && Once(s) && n in s.bridges && LandCall(s, n).Some? && HoldingAt(LandCall(s, n).value, n, id)
    ensures id in s.messages && s.messages[id].starts == 0
  {
    if !HoldingAt(s, n, id) {
      assert StartedIsBegun(s, id);
    }
  }

  lemma HeldBefore(s: State, n: nat, e: Event, id: nat)
    requires n in s.bridges && ResumeBridge(s, n, e).Some? && HoldingAt(ResumeBridge(s, n, e).value, n, id)
    ensures HoldingAt(s, n, id)
  {
  }

  lemma HolderUnstarted(s: State, a: Action, n: nat, id: nat)
    requires AllSound(s) && Once(s) && Next(s, a).Some? && HoldingAt(Next(s, a).value, n, id)
    ensures id in s.messages && s.messages[id].starts == 0
  {
    hide OnEvent, AllSound;
    if a.Land? && a.bridge == n {
      HoldsAfterLanding(s, n, id);
    } else if a.Resume? && a.bridge == n {
      HeldBefore(s, n, a.event, id);
    } else {
      assert HoldingAt(s, n, id);
    }
  }

  lemma StepKeepsOnce(s: State, a: Action)
    requires AllSound(s) && Once(s) && Exclusive(s) && Next(s, a).Some?
    ensures Once(Next(s, a).value)
  {
    hide OnEvent, AllSound, Holding, LandCall, ResumeBridge;
    var s' := Next(s, a).value;
    StepsForward(s, a);
    forall id | id in s'.messages ensures s'.messages[id].starts <= 1 {
      if id !in s.messages {
        CreatedUnstarted(s, a, id);
      } else if s'.messages[id].starts != s.messages[id].starts {
        StarterHeld(s, a, id);
      }
    }
    forall n, id | HoldingAt(s', n, id) ensures id in s'.messages && s'.messages[id].starts == 0 {
      HolderUnstarted(s, a, n, id);
      if s'.messages[id].starts != s.messages[id].starts {
        StarterHeld(s, a, id);
        OtherHolder(s, a, n, id);
      }
    }
  }

  lemma CreatedUnstarted(s: State, a: Action, id: nat)
    requires Next(s, a).Some? && id in Next(s, a).value.messages && id !in s.messages
    ensures Next(s, a).value.messages[id].starts == 0
  {
  }

  lemma OtherHolder(s: State, a: Action, n: nat, id: nat)
    requires Next(s, a).Some? && a.Resume? && n != a.bridge && HoldingAt(Next(s, a).value, n, id)
    ensures HoldingAt(s, n, id)
  {
  }

  /** A bridge comes to hold a message only by reading it before anyone has begun it. */
  lemma NewHolder(s: State, a: Action, n: nat, id: nat)
    requires AllSound(s) && Next(s, a).Some? && HoldingAt(Next(s, a).value, n, id) && !HoldingAt(s, n, id)
    ensures a == Land(n) && Fresh(Next(s, a).value, id)
  {
    if a.Resume? && a.bridge == n {
      HeldBefore(s, n, a.event, id);
    }
  }

  lemma StepKeepsExclusive(s: State, a: Action)
    requires AllSound(s) && Exclusive(s) && Next(s, a).Some? && FreshExclusive(Next(s, a).value)
    ensures Exclusive(Next(s, a).value)
  {
    hide AllSound, Next, HoldingAt, Fresh;
    var s' := Next(s, a).value;
    forall n, k, id | HoldingAt(s', n, id) && HoldingAt(s', k, id) ensures n == k {
      if !HoldingAt(s, n, id) {
        NewHolder(s, a, n, id);
      } else if !HoldingAt(s, k, id) {
        NewHolder(s, a, k, id);
      }
    }
  }

  lemma {:induction false} RunOnce(run: seq<State>, acts: seq<Action>, i: nat)
    requires IsRun(run, acts) && i < |run| && (forall j :: 0 <= j < i ==> FreshExclusive(run[j]))
    ensures Once(run[i]) && (0 < i ==> Exclusive(run[i - 1]))
  {
    if i > 0 {
      hide Next, FreshExclusive, Once;
      RunOnce(run, acts, i - 1);
      RunSound(run, acts, i - 1);
      assert StepAt(run, acts, i - 1);
      if i > 1 {
        RunSound(run, acts, i - 2);
        assert StepAt(run, acts, i - 2);
        StepKeepsExclusive(run[i - 2], acts[i - 2]);
      }
      StepKeepsOnce(run[i - 1], acts[i - 1]);
    }
  }

  /**
    Over any run with crashes, restarts and redelivery, the executor or the prompt is started at
    most once per message, as long as no two live bridges hold at the same time a message that
    nobody has begun.
   */
  lemma StartedAtMostOnce(run: seq<State>, acts: seq<Action>, i: nat, id: nat)
    requires IsRun(run, acts) && i < |run| && id in run[i].messages
    requires forall j :: 0 <= j < i ==> FreshExclusive(run[j])
    ensures run[i].messages[id].starts <= 1
  {
    RunOnce(run, acts, i);
  }

  /** One live bridge at a time. */
  ghost predicate Lone(s: State) {
    forall n, k :: n in s.bridges && k in s.bridges ==> n == k
  }

  lemma LoneBridgeStartsOnce(run: seq<State>, acts: seq<Action>, i: nat, id: nat)
    requires IsRun(run, acts) && i < |run| && id in run[i].messages
    requires forall j :: 0 <= j < i ==> Lone(run[j])
    ensures run[i].messages[id].starts <= 1
  {
    forall j | 0 <= j < i ensures FreshExclusive(run[j]) {
      assert Lone(run[j]);
    }
    RunOnce(run, acts, i);
  }

  // ---------------------------------------------------------------- twice, otherwise

  /** Where these actions lead. */
  function Exec(s: State, acts: seq<Action>): Option<State>
    decreases acts
  {
    if acts == [] then Some(s)
    else
      match Next(s, acts[0])
      case None => None
      case Some(s') => Exec(s', acts[1..])
  }

  lemma {:induction false} ExecBoth(s: State, one: seq<Action>, two: seq<Action>)
    requires Exec(s, one).Some?
    ensures Exec(s, one + two) == Exec(Exec(s, one).value, two)
    decreases one
  {
    if one == [] {
      assert one + two == two;
    } else {
      assert (one + two)[1..] == one[1..] + two;
      ExecBoth(Next(s, one[0]).value, one[1..], two);
    }
  }

  lemma ExecOne(s: State, a: Action)
    requires Next(s, a).Some?
    ensures Exec(s, [a]) == Next(s, a)
  {
    assert [a][1..] == [];
    assert Exec(Next(s, a).value, []) == Next(s, a);
  }

  /** The other bridges are where they were. */
  ghost predicate OthersStay(s: State, s': State, n: nat) {
    n in s'.bridges && forall x :: x in s.bridges && x != n ==> x in s'.bridges && s'.bridges[x] == s.bridges[x]
  }

  ghost predicate AtPromote(s: State, n: nat, id: nat) {
    n in s.bridges && s.bridges[n].pc == At(id, Promote)
  }

  /** Nobody has finished the message, and it has reached an agent. */
  ghost predicate Underway(s: State, id: nat) {
    id in s.messages && (s.messages[id].status.Delivered? || s.messages[id].status.Acknowledged? || s.messages[id].status.Processing?)
  }

  /** One step of a holder towards the processing transition. */
  lemma HolderStep(s: State, n: nat, id: nat) returns (a: Action)
    requires AllSound(s) && HoldingAt(s, n, id) && Fresh(s, id) && !AtPromote(s, n, id)
    ensures Next(s, a).Some? && AllSound(Next(s, a).value)
    ensures var s' := Next(s, a).value;
            && HoldingAt(s', n, id) && Fresh(s', id) && OthersStay(s, s', n)
            && s'.messages[id].starts == s.messages[id].starts
            && ToGo(s'.bridges[n].pc) < ToGo(s.bridges[n].pc)
  {
    assert SoundAt(s, n);
    var pc := s.bridges[n].pc;
    a := if pc.point.Acknowledge? && pc.answer.Pending? then Land(n) else Resume(n, Returned(false));
    StepKeepsSound(s, a);
  }

  function ToGo(pc: Pc): nat {
    if !pc.Waiting? then 0
    else if pc.point.Read? then 3
    else if pc.point.Acknowledge? then if pc.answer.Pending? then 2 else 1
    else 0
  }

  lemma {:induction false} HolderPromotes(s: State, n: nat, id: nat) returns (acts: seq<Action>)
    requires AllSound(s) && HoldingAt(s, n, id) && Fresh(s, id)
    ensures Exec(s, acts).Some?
    ensures var s' := Exec(s, acts).value;
            && AllSound(s') && AtPromote(s', n, id) && Fresh(s', id) && OthersStay(s, s', n)
            && s'.messages[id].starts == s.messages[id].starts
    decreases ToGo(if n in s.bridges then s.bridges[n].pc else Resting)
  {
    hide Next, AllSound;
    if AtPromote(s, n, id) {
      acts := [];
    } else {
      var a := HolderStep(s, n, id);
      var rest := HolderPromotes(Next(s, a).value, n, id);
      ExecOne(s, a);
      ExecBoth(s, [a], rest);
      acts := [a] + rest;
    }
  }

  /** From there the processing transition is granted, and the work is started. */
  lemma PromotedStarts(s: State, n: nat, id: nat) returns (acts: seq<Action>)
    requires AtPromote(s, n, id) && Underway(s, id)
    ensures Exec(s, acts).Some?
    ensures var s' := Exec(s, acts).value;
            Underway(s', id) && OthersStay(s, s', n) && s'.messages[id].starts == s.messages[id].starts + 1
  {
    var one := PromotedLands(s, n, id);
    var two := GrantedGoesOn(one, n, id);
    var three := MarkedStarts(two, n, id);
    hide Next;
    acts := [Land(n), Resume(n, Returned(false)), Resume(n, Returned(false))];
    assert acts[1..] == [Resume(n, Returned(false)), Resume(n, Returned(false))];
    assert acts[1..][1..] == [Resume(n, Returned(false))];
    ExecOne(two, acts[2]);
  }

  lemma PromotedLands(s: State, n: nat, id: nat) returns (s': State)
    requires AtPromote(s, n, id) && Underway(s, id)
    ensures Next(s, Land(n)) == Some(s') && OthersStay(s, s', n) && Underway(s', id)
    ensures s'.bridges[n].pc == Waiting(id, Promote, Reply(Processing)) && s'.messages[id].starts == s.messages[id].starts
  {
    s' := Next(s, Land(n)).value;
  }

  lemma GrantedGoesOn(s: State, n: nat, id: nat) returns (s': State)
    requires n in s.bridges && s.bridges[n].pc == Waiting(id, Promote, Reply(Processing)) && Underway(s, id)
    ensures Next(s, Resume(n, Returned(false))) == Some(s') && OthersStay(s, s', n) && Underway(s', id)
    ensures s'.bridges[n].pc == At(id, MarkBusy) && s'.messages[id].starts == s.messages[id].starts
  {
    s' := Next(s, Resume(n, Returned(false))).value;
  }

  lemma MarkedStarts(s: State, n: nat, id: nat) returns (s': State)
    requires n in s.bridges && s.bridges[n].pc == At(id, MarkBusy) && Underway(s, id)
    ensures Next(s, Resume(n, Returned(false))) == Some(s') && OthersStay(s, s', n) && Underway(s', id)
    ensures s'.messages[id].starts == s.messages[id].starts + 1
  {
    s' := Next(s, Resume(n, Returned(false))).value;
  }

  lemma HolderUnderway(s: State, n: nat, id: nat)
    requires AllSound(s) && AtPromote(s, n, id) && Fresh(s, id)
    ensures Underway(s, id)
  {
    assert SoundAt(s, n);
  }

  lemma OtherHolds(s: State, s': State, n: nat, k: nat, id: nat)
    requires OthersStay(s, s', n) && n != k
    ensures HoldingAt(s, k, id) ==> HoldingAt(s', k, id)
    ensures AtPromote(s, k, id) ==> AtPromote(s', k, id)
  {
  }

  /** Two bridges that hold a message nobody has begun can both go on to start it. */
  lemma BothStart(s: State, n: nat, k: nat, id: nat) returns (acts: seq<Action>)
    requires AllSound(s) && n != k && HoldingAt(s, n, id) && HoldingAt(s, k, id) && Fresh(s, id)
    ensures Exec(s, acts).Some?
    ensures id in Exec(s, acts).value.messages && Exec(s, acts).value.messages[id].starts == s.messages[id].starts + 2
  {
    hide Next, AllSound, HoldingAt, AtPromote, OthersStay, Underway;
    var one := HolderPromotes(s, n, id);
    var s1 := Exec(s, one).value;
    OtherHolds(s, s1, n, k, id);
    var two := HolderPromotes(s1, k, id);
    var s2 := Exec(s1, two).value;
    OtherHolds(s1, s2, k, n, id);
    HolderUnderway(s2, n, id);
    var three := PromotedStarts(s2, n, id);
    var s3 := Exec(s2, three).value;
    OtherHolds(s2, s3, n, k, id);
    var four := PromotedStarts(s3, k, id);
    InMessages(Exec(s3, four).value, id);
    ExecBoth(s, one, two);
    ExecBoth(s, one + two, three);
    ExecBoth(s, one + two + three, four);
    acts := one + two + three + four;
  }

  lemma InMessages(s: State, id: nat)
    requires Underway(s, id)
    ensures id in s.messages
  {
  }

  lemma {:induction false} ExecIsRun(run: seq<State>, acts: seq<Action>, more: seq<Action>)
    returns (run': seq<State>)
    requires IsRun(run, acts) && Exec(run[|acts|], more).Some?
    ensures IsRun(run', acts + more) && run <= run' && run'[|run'| - 1] == Exec(run[|acts|], more).value
    decreases more
  {
    if more == [] {
      assert acts + more == acts;
      run' := run;
    } else {
      var s' := Next(run[|acts|], more[0]).value;
      assert IsRun(run + [s'], acts + [more[0]]) by {
        forall i | 0 <= i < |acts| + 1 ensures StepAt(run + [s'], acts + [more[0]], i) {
          if i < |acts| {
            assert StepAt(run, acts, i);
          }
        }
      }
      run' := ExecIsRun(run + [s'], acts + [more[0]], more[1..]);
      assert acts + [more[0]] + more[1..] == acts + more;
    }
  }

  /**
    The condition cannot be weakened: every run that breaks it in its last state can be continued
    to a run that starts the message twice.
   */
  lemma OverlapCanStartTwice(run: seq<State>, acts: seq<Action>, n: nat, k: nat, id: nat)
    returns (run': seq<State>, acts': seq<Action>)
    requires IsRun(run, acts) && n != k
    requires var s := run[|acts|]; HoldingAt(s, n, id) && HoldingAt(s, k, id) && Fresh(s, id)
    ensures IsRun(run', acts') && run <= run' && acts <= acts'
    ensures id in run'[|acts'|].messages && run'[|acts'|].messages[id].starts >= 2
  {
    hide Next, HoldingAt, AllSound, Exec;
    RunSound(run, acts, |acts|);
    var more := BothStart(run[|acts|], n, k, id);
    run' := ExecIsRun(run, acts, more);
    acts' := acts + more;
  }

  // ---------------------------------------------------------------- what an undisturbed bridge does

  /** The bridge waits at this call, running and not stopping, and the message is in this state. */
  ghost predicate Busy(s: State, n: nat, id: nat, kind: Kind, pc: Pc, m: Message) {
    n in s.bridges && s.bridges[n] == Bridge(kind, false, pc) && id in s.messages && s.messages[id] == m
  }

  lemma LandsAt(s: State, n: nat, id: nat, kind: Kind, point: Point, m: Message)
    requires Busy(s, n, id, kind, At(id, point), m) && point.Asks()
    ensures var (status, answer) := Apply(m.status, Asked(point));
            && Next(s, Land(n)).Some?
            && Busy(Next(s, Land(n)).value, n, id, kind, Waiting(id, point, answer), m.(status := status))
  {
  }

  lemma ResumesAt(s: State, n: nat, id: nat, kind: Kind, pc: Pc, m: Message, e: Event)
    requires Busy(s, n, id, kind, pc, m) && pc.Waiting? && pc.id == id && OnEvent(Bridge(kind, false, pc), e).Some?
    ensures var next := OnEvent(Bridge(kind, false, pc), e).value;
            && Next(s, Resume(n, e)).Some?
            && Busy(Next(s, Resume(n, e)).value, n, id, kind, next,
                    m.(starts := m.starts + if pc.point.MarkBusy? && next.Waiting? then 1 else 0))
  {
    hide OnEvent;
  }

  /** A call that lands and whose reply comes back. */
  lemma Asks(s: State, n: nat, id: nat, kind: Kind, point: Point, m: Message) returns (s': State)
    requires Busy(s, n, id, kind, At(id, point), m) && point.Asks() && Apply(m.status, Asked(point)).1.Reply?
    ensures var (status, answer) := Apply(m.status, Asked(point));
            && Exec(s, [Land(n), Resume(n, Returned(false))]) == Some(s')
            && Busy(s', n, id, kind, OnAnswer(Bridge(kind, false, At(id, point)), id, point, answer.status, false), m.(status := status))
  {
    var (status, answer) := Apply(m.status, Asked(point));
    LandsAt(s, n, id, kind, point, m);
    var s1 := Next(s, Land(n)).value;
    ResumesAt(s1, n, id, kind, Waiting(id, point, answer), m.(status := status), Returned(false));
    s' := Next(s1, Resume(n, Returned(false))).value;
    hide Next;
    assert [Land(n), Resume(n, Returned(false))][1..] == [Resume(n, Returned(false))];
    ExecOne(s1, Resume(n, Returned(false)));
  }

  lemma Then(s: State, one: seq<Action>, s1: State, two: seq<Action>, s2: State)
    requires Exec(s, one) == Some(s1) && Exec(s1, two) == Some(s2)
    ensures Exec(s, one + two) == Some(s2)
  {
    ExecBoth(s, one, two);
  }

  /** A bridge with nothing to do takes up the message and reads it. */
  lemma Takes(s: State, n: nat, id: nat, kind: Kind, pc: Pc, m: Message) returns (acts: seq<Action>, s': State)
    requires Busy(s, n, id, kind, pc, m) && !pc.Waiting?
    ensures Exec(s, acts) == Some(s')
    ensures Busy(s', n, id, kind, OnAnswer(Bridge(kind, false, At(id, Read)), id, Read, m.status, false), m)
  {
    var s1 := Next(s, Claim(n, id)).value;
    assert Busy(s1, n, id, kind, At(id, Read), m);
    ExecOne(s, Claim(n, id));
    s' := Asks(s1, n, id, kind, Read, m);
    acts := [Claim(n, id)] + [Land(n), Resume(n, Returned(false))];
    Then(s, [Claim(n, id)], s1, [Land(n), Resume(n, Returned(false))], s');
  }

  /** From the processing transition to the running work. */
  lemma Promotes(s: State, n: nat, id: nat, kind: Kind, m: Message) returns (acts: seq<Action>, s': State)
    requires Busy(s, n, id, kind, At(id, Promote), m) && m.status.Acknowledged?
    ensures Exec(s, acts) == Some(s')
    ensures Busy(s', n, id, kind, At(id, Work), Message(Processing, m.starts + 1))
  {
    var s1 := Asks(s, n, id, kind, Promote, m);
    ResumesAt(s1, n, id, kind, At(id, MarkBusy), Message(Processing, m.starts), Returned(false));
    s' := Next(s1, Resume(n, Returned(false))).value;
    ExecOne(s1, Resume(n, Returned(false)));
    acts := [Land(n), Resume(n, Returned(false))] + [Resume(n, Returned(false))];
    Then(s, [Land(n), Resume(n, Returned(false))], s1, [Resume(n, Returned(false))], s');
  }

  lemma Acknowledges(s: State, n: nat, id: nat, kind: Kind, m: Message) returns (acts: seq<Action>, s': State)
    requires Busy(s, n, id, kind, At(id, Acknowledge), m) && m.status.Delivered?
    ensures Exec(s, acts) == Some(s')
    ensures Busy(s', n, id, kind, At(id, Promote), Message(Acknowledged, m.starts))
  {
    s' := Asks(s, n, id, kind, Acknowledge, m);
    acts := [Land(n), Resume(n, Returned(false))];
  }

  /** The terminal call of `processRequest`, and marking the session idle again. */
  lemma Completes(s: State, n: nat, id: nat, kind: Kind, target: Status, m: Message) returns (acts: seq<Action>, s': State)
    requires Busy(s, n, id, kind, At(id, Complete(target, Finish)), m) && m.status.Processing? && target.Terminal()
    ensures Exec(s, acts) == Some(s')
    ensures Busy(s', n, id, kind, Settled(id, true, false), Message(target, m.starts))
  {
    var s1 := Asks(s, n, id, kind, Complete(target, Finish), m);
    ResumesAt(s1, n, id, kind, At(id, MarkIdle(true)), Message(target, m.starts), Returned(false));
    s' := Next(s1, Resume(n, Returned(false))).value;
    ExecOne(s1, Resume(n, Returned(false)));
    acts := [Land(n), Resume(n, Returned(false))] + [Resume(n, Returned(false))];
    Then(s, [Land(n), Resume(n, Returned(false))], s1, [Resume(n, Returned(false))], s');
  }

  lemma Works(s: State, n: nat, id: nat, kind: Kind, m: Message, reason: StopReason, text: string)
    returns (acts: seq<Action>, s': State)
    requires Busy(s, n, id, kind, At(id, Work), m) && m.status.Processing?
    ensures Exec(s, acts) == Some(s')
    ensures Busy(s', n, id, kind, Settled(id, true, false),
                 Message(if kind.Native? then Failed else TerminalTarget(reason, text), m.starts))
  {
    var ran := Resume(n, Ran(reason, text));
    ResumesAt(s, n, id, kind, At(id, Work), m, Ran(reason, text));
    var s1 := Next(s, ran).value;
    ExecOne(s, ran);
    acts := [ran];
    if kind.Native? {
      var s2 := Asks(s1, n, id, kind, Recheck, m);
      Then(s, acts, s1, [Land(n), Resume(n, Returned(false))], s2);
      acts := acts + [Land(n), Resume(n, Returned(false))];
      s1 := s2;
    }
    var rest;
    rest, s' := Completes(s1, n, id, kind, if kind.Native? then Failed else TerminalTarget(reason, text), m);
    Then(s, acts, s1, rest, s');
    acts := acts + rest;
  }

  /**
    A message that has been delivered or acknowledged, and a bridge that nobody disturbs: it starts the
    work once and comes to its end. A native bridge then fails the message; a DeepSeek bridge responds after
    an ended turn with text, rejects after a refusal, and fails it otherwise.
   */
  lemma UndisturbedServes(s: State, n: nat, id: nat, reason: StopReason, text: string) returns (acts: seq<Action>, s': State)
    requires n in s.bridges && !s.bridges[n].stopping && !s.bridges[n].pc.Waiting?
    requires id in s.messages && (s.messages[id].status.Delivered? || s.messages[id].status.Acknowledged?)
    ensures Exec(s, acts) == Some(s')
    ensures n in s'.bridges && s'.bridges[n].pc == Settled(id, true, false)
    ensures id in s'.messages && s'.messages[id].starts == s.messages[id].starts + 1
    ensures s'.messages[id].status ==
              if s.bridges[n].kind.Native? then Failed
              else if reason == EndTurn && text != "" then Responded
              else if reason == Refusal then Rejected
              else Failed
  {
    hide Next, Exec;
    var kind, m := s.bridges[n].kind, s.messages[id];
    var s1;
    acts, s1 := Takes(s, n, id, kind, s.bridges[n].pc, m);
    if m.status.Delivered? {
      var more, s2 := Acknowledges(s1, n, id, kind, m);
      Then(s, acts, s1, more, s2);
      acts, s1, m := acts + more, s2, Message(Acknowledged, m.starts);
    }
    var more, s3 := Promotes(s1, n, id, kind, m);
    Then(s, acts, s1, more, s3);
    acts := acts + more;
    var last;
    last, s' := Works(s3, n, id, kind, Message(Processing, m.starts + 1), reason, text);
    Then(s, acts, s3, last, s');
    acts := acts + last;
  }

  /** A message found in processing, left by a bridge that died, is failed and not started again. */
  lemma UndisturbedFailsOrphan(s: State, n: nat, id: nat) returns (acts: seq<Action>, s': State)
    requires n in s.bridges && !s.bridges[n].stopping && !s.bridges[n].pc.Waiting?
    requires id in s.messages && s.messages[id].status.Processing?
    ensures Exec(s, acts) == Some(s')
    ensures n in s'.bridges && s'.bridges[n].pc == Settled(id, true, false)
    ensures id in s'.messages && s'.messages[id] == Message(Failed, s.messages[id].starts)
  {
    hide Next, Exec;
    var kind, m := s.bridges[n].kind, s.messages[id];
    var s1;
    acts, s1 := Takes(s, n, id, kind, s.bridges[n].pc, m);
    s' := Asks(s1, n, id, kind, Complete(Failed, ReturnNow), m);
    Then(s, acts, s1, [Land(n), Resume(n, Returned(false))], s');
    acts := acts + [Land(n), Resume(n, Returned(false))];
  }

  /** A message that is terminal, or has not been delivered yet, is left alone. */
  lemma UndisturbedLeavesAlone(s: State, n: nat, id: nat) returns (acts: seq<Action>, s': State)
    requires n in s.bridges && !s.bridges[n].stopping && !s.bridges[n].pc.Waiting?
    requires id in s.messages && (s.messages[id].status.Terminal() || s.messages[id].status.Queued?)
    ensures Exec(s, acts) == Some(s')
    ensures n in s'.bridges && s'.bridges[n].pc == Settled(id, false, false)
    ensures id in s'.messages && s'.messages[id] == s.messages[id]
  {
    hide Next, Exec;
    acts, s' := Takes(s, n, id, s.bridges[n].kind, s.bridges[n].pc, s.messages[id]);
  }

  /** The daemon's transition table, row by row. */
  lemma AllowedMeans(target: Status)
    ensures Allowed(Queued, target) <==> target in {Delivered, TimedOut, Failed}
    ensures Allowed(Delivered, target) <==> target in {Acknowledged, Processing, Responded, Rejected, TimedOut, Failed}
    ensures Allowed(Acknowledged, target) <==> target in {Processing, Responded, Rejected, TimedOut, Failed}
    ensures Allowed(Processing, target) <==> target in {Responded, Rejected, TimedOut, Failed}
    ensures forall done :: done in {Responded, Rejected, TimedOut, Failed} ==> !Allowed(done, target)
  {
  }

  /** A call the daemon grants, repeats or refuses: the new state and the answer. */
  lemma ApplyMeans(current: Status, target: Status)
    ensures var (status, answer) := Apply(current, Some(target));
            if current == target || Allowed(current, target) then status == target && answer == Reply(target)
            else status == current && answer == Refused
    ensures Apply(current, None) == (current, Reply(current))
  {
  }

  /** A run that throws: the message is failed, the session marked idle, and the exception goes on. */
  lemma UndisturbedRethrows(s: State, n: nat, id: nat, kind: Kind, m: Message) returns (acts: seq<Action>, s': State)
    requires Busy(s, n, id, kind, At(id, Work), m) && m.status.Processing?
    ensures Exec(s, acts) == Some(s') && acts != [] && acts[0] == Resume(n, Threw)
    ensures n in s'.bridges && s'.bridges[n].pc == Settled(id, true, true)
    ensures id in s'.messages && s'.messages[id] == Message(Failed, m.starts)
  {
    hide Exec;
    ResumesAt(s, n, id, kind, At(id, Work), m, Threw);
    var s1 := Next(s, Resume(n, Threw)).value;
    ExecOne(s, Resume(n, Threw));
    var s2 := Asks(s1, n, id, kind, Complete(Failed, Rethrow), m);
    Then(s, [Resume(n, Threw)], s1, [Land(n), Resume(n, Returned(false))], s2);
    ResumesAt(s2, n, id, kind, At(id, MarkIdle(false)), Message(Failed, m.starts), Returned(false));
    s' := Next(s2, Resume(n, Returned(false))).value;
    ExecOne(s2, Resume(n, Returned(false)));
    acts := [Resume(n, Threw)] + [Land(n), Resume(n, Returned(false))] + [Resume(n, Returned(false))];
    Then(s, [Resume(n, Threw)] + [Land(n), Resume(n, Returned(false))], s2, [Resume(n, Returned(false))], s');
  }

  /** A bridge that is not stopping marks its session idle before it leaves anything it had marked busy for. */
  lemma IdleBeforeEnd(b: Bridge, e: Event)
    requires b.pc.Waiting? && !b.stopping && OnEvent(b, e).Some? && OnEvent(b, e).value.Settled?
    ensures var p := b.pc.point;
            || p.Read? || p.Acknowledge? || p.Promote? || p.MarkBusy? || p.MarkIdle?
            || (p.Complete? && p.after == ReturnNow) || (p.Verify? && p.after == ReturnNow)
  {
  }

  /** A completion whose reply was lost: the bridge looks again, finds the message terminal, and ends normally. */
  lemma LostReplyIsNoticed(s: State, n: nat, id: nat, kind: Kind, target: Status, m: Message)
    returns (acts: seq<Action>, s': State)
    requires Busy(s, n, id, kind, At(id, Complete(target, Finish)), m) && m.status.Terminal()
    ensures Exec(s, acts) == Some(s') && acts != [] && acts[0] == Resume(n, Threw)
    ensures n in s'.bridges && s'.bridges[n].pc == Settled(id, true, false)
    ensures id in s'.messages && s'.messages[id] == m
  {
    hide Exec;
    ResumesAt(s, n, id, kind, At(id, Complete(target, Finish)), m, Threw);
    var s1 := Next(s, Resume(n, Threw)).value;
    ExecOne(s, Resume(n, Threw));
    var s2 := Asks(s1, n, id, kind, Verify(Finish), m);
    Then(s, [Resume(n, Threw)], s1, [Land(n), Resume(n, Returned(false))], s2);
    ResumesAt(s2, n, id, kind, At(id, MarkIdle(true)), m, Returned(false));
    s' := Next(s2, Resume(n, Returned(false))).value;
    ExecOne(s2, Resume(n, Returned(false)));
    acts := [Resume(n, Threw)] + [Land(n), Resume(n, Returned(false))] + [Resume(n, Returned(false))];
    Then(s, [Resume(n, Threw)] + [Land(n), Resume(n, Returned(false))], s2, [Resume(n, Returned(false))], s');
  }

  /**
    How `processRequest` ends. It throws when a call throws that nobody catches, when the message turns
    out not to be terminal after a completion that threw, and again after a run that threw; it has got past
    the processing check unless it ended at one of the first three calls.
   */
  lemma ThrowsExactlyWhen(b: Bridge, e: Event)
    requires b.pc.Waiting? && OnEvent(b, e).Some?
    ensures var p, answer, pc := b.pc.point, b.pc.answer, OnEvent(b, e).value;
            var failed := e.Threw? || (e.Returned? && p.Asks() && answer.Refused?);
            var terminal := answer.Reply? && answer.status in {Responded, Rejected, TimedOut, Failed};
            && (pc.Settled? ==>
                  && (pc.reached <==> !p.Read? && !p.Acknowledge? && !p.Promote?)
                  && (pc.threw <==>
                        if p.Read? || p.Acknowledge? || p.Promote? || p.MarkBusy? || p.Recheck? then failed
                        else if p.MarkIdle? then failed || !p.ok
                        else if p.Complete? then p.after == Rethrow
                        else p.Verify? && (failed || !terminal || p.after == Rethrow)))
            && (pc.Waiting? && pc.point.MarkIdle? ==>
                  (pc.point.ok <==>
                    if p.Recheck? then !failed
                    else if p.Complete? then p.after == Finish
                    else !failed && terminal && p.after == Finish))
  {
  }

  /** Whatever a native bridge itself completes, it completes as failed. */
  lemma NativeOnlyFails(run: seq<State>, acts: seq<Action>, i: nat, id: nat)
    requires IsRun(run, acts) && i < |acts| && acts[i].Land? && acts[i].bridge in run[i].bridges
    requires run[i].bridges[acts[i].bridge].kind.Native?
    requires id in run[i].messages && !run[i].messages[id].status.Terminal()
    ensures id in run[i + 1].messages
    ensures run[i + 1].messages[id].status.Terminal() ==> run[i + 1].messages[id].status == Failed
  {
    hide Apply;
    RunSound(run, acts, i);
    assert StepAt(run, acts, i);
    var n := acts[i].bridge;
    assert SoundAt(run[i], n);
    ApplyReaches(run[i].messages[id].status, Asked(run[i].bridges[n].pc.point));
  }

  lemma ApplyReaches(current: Status, asked: Option<Status>)
    ensures Apply(current, asked).0 != current ==> asked == Some(Apply(current, asked).0)
  {
  }

  /** A bridge asks for `responded` exactly after a prompt that ended its turn with some text. */
  lemma RespondsExactlyWhen(b: Bridge, e: Event)
    requires b.pc.Waiting? && OnEvent(b, e).Some?
    ensures (OnEvent(b, e).value.Waiting? && OnEvent(b, e).value.point.Complete? && OnEvent(b, e).value.point.target.Responded?)
            <==> (b.kind.DeepSeek? && b.pc.point.Work? && e.Ran? && e.reason.EndTurn? && e.text != "")
  {
  }
}
