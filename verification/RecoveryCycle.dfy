/**
  One recovery cycle, for every behaviour of its environment: each question may be answered
  either way at each await. The environment keeps the history of what was asked and answered.
 */
module RecoveryCycle {
  import opened Prelude

  datatype Event =
    | Allowed(b: bool)
    | Owns(b: bool)
    | Reacquired(b: bool)
    | RuntimeRecovered
    | RequestPending(b: bool)
    | ToldReacquired
    | ToldContended
    | ToldReady

  datatype Outcome = Ready | Retry | Stopped | Threw

  class Environment {
    ghost var log: seq<Event>

    constructor ()
      ensures log == []
    {
      log := [];
    }

    method CanRecover() returns (b: bool)
      modifies this
      ensures log == old(log) + [Allowed(b)]
    {
      b := *;
      log := log + [Allowed(b)];
    }

    /** None stands for the exception. */
    method OwnsLease() returns (b: Option<bool>)
      modifies this
      ensures log == if b.Some? then old(log) + [Owns(b.value)] else old(log)
    {
      b := *;
      if b.Some? {
        log := log + [Owns(b.value)];
      }
    }

    method Reacquire() returns (b: Option<bool>)
      modifies this
      ensures log == if b.Some? then old(log) + [Reacquired(b.value)] else old(log)
    {
      b := *;
      if b.Some? {
        log := log + [Reacquired(b.value)];
      }
    }

    /** False stands for the exception. */
    method RecoverRuntimeState() returns (ok: bool)
      modifies this
      ensures log == if ok then old(log) + [RuntimeRecovered] else old(log)
    {
      ok := *;
      if ok {
        log := log + [RuntimeRecovered];
      }
    }

    method HasPendingRequest() returns (b: bool)
      modifies this
      ensures log == old(log) + [RequestPending(b)]
    {
      b := *;
      log := log + [RequestPending(b)];
    }

    method Tell(e: Event)
      modifies this
      ensures log == old(log) + [e]
    {
      log := log + [e];
    }
  }

  datatype Ownership = Confirmed | Contended | Failed

  /** What was asked and announced while ownership was recovered, for each way it can end. */
  ghost predicate OwnershipHistory(part: seq<Event>, o: Ownership) {
    match o
    case Confirmed => part == [Owns(true)] || part == [Owns(false), Reacquired(true), ToldReacquired]
    case Contended => part == [Owns(false), Reacquired(false), ToldContended]
    case Failed => part == [] || part == [Owns(false)]
  }

  method RecoverDaemonOwnership(env: Environment) returns (o: Ownership, ghost part: seq<Event>)
    modifies env
    ensures env.log == old(env.log) + part && OwnershipHistory(part, o)
  {
    var owns := env.OwnsLease();
    if owns.None? {
      return Failed, [];
    }
    part := [Owns(owns.value)];
    if owns.value {
      return Confirmed, part;
    }
    var reacquired := env.Reacquire();
    if reacquired.None? {
      return Failed, part;
    }
    part := part + [Reacquired(reacquired.value)];
    if reacquired.value {
      env.Tell(ToldReacquired);
      return Confirmed, part + [ToldReacquired];
    }
    env.Tell(ToldContended);
    return Contended, part + [ToldContended];
  }

  /** The history once the runtime state has been recovered and recovery is still allowed. */
  function Recovered(first: seq<Event>): seq<Event> {
    [Allowed(true)] + first + [Allowed(true), RuntimeRecovered, Allowed(true)]
  }

  /** A cycle that got no further than the runtime state. */
  ghost predicate EndedEarly(log: seq<Event>, first: seq<Event>, o: Outcome) {
    match o
    case Stopped =>
      || log == [Allowed(false)]
      || (OwnershipHistory(first, Contended) && log == [Allowed(true)] + first)
      || (OwnershipHistory(first, Confirmed) && log == [Allowed(true)] + first + [Allowed(false)])
      || (OwnershipHistory(first, Confirmed) && log == [Allowed(true)] + first + [Allowed(true), RuntimeRecovered, Allowed(false)])
    case Threw =>
      || (OwnershipHistory(first, Failed) && log == [Allowed(true)] + first)
      || (OwnershipHistory(first, Confirmed) && log == [Allowed(true)] + first + [Allowed(true)])
    case _ => false
  }

  /** A cycle that confirmed ownership, recovered the runtime state and asked for ownership again. */
  ghost predicate EndedLate(log: seq<Event>, first: seq<Event>, second: seq<Event>, o: Outcome) {
    && OwnershipHistory(first, Confirmed)
    && match o
       case Ready => OwnershipHistory(second, Confirmed) && log == Recovered(first) + second + [Allowed(true), RequestPending(false), ToldReady]
       case Retry => OwnershipHistory(second, Confirmed) && log == Recovered(first) + second + [Allowed(true), RequestPending(true)]
       case Stopped =>
         || (OwnershipHistory(second, Contended) && log == Recovered(first) + second)
         || (OwnershipHistory(second, Confirmed) && log == Recovered(first) + second + [Allowed(false)])
       case Threw => OwnershipHistory(second, Failed) && log == Recovered(first) + second
  }

  /**
    One cycle. For every outcome its whole history is one of those listed; ready and retry come only
    after ownership, the runtime state, ownership once more, and leave to recover in between.
   */
  method RunDaemonRecoveryCycle(env: Environment) returns (o: Outcome, ghost first: seq<Event>, ghost second: seq<Event>)
    requires env.log == []
    modifies env
    ensures EndedEarly(env.log, first, o) || EndedLate(env.log, first, second, o)
  {
    first, second := [], [];
    var allowed := env.CanRecover();
    if !allowed {
      return Stopped, first, second;
    }
    var owned;
    owned, first := RecoverDaemonOwnership(env);
    if !owned.Confirmed? {
      return if owned.Failed? then Threw else Stopped, first, second;
    }
    allowed := env.CanRecover();
    if !allowed {
      return Stopped, first, second;
    }
    var recovered := env.RecoverRuntimeState();
    if !recovered {
      return Threw, first, second;
    }
    allowed := env.CanRecover();
    if !allowed {
      assert env.log == [Allowed(true)] + first + [Allowed(true), RuntimeRecovered, Allowed(false)];
      return Stopped, first, second;
    }
    assert env.log == Recovered(first);
    hide OwnershipHistory, Recovered;
    o, second := ConfirmAndAnnounce(env, first);
  }

  /** The second half of the cycle, after the runtime state. */
  method ConfirmAndAnnounce(env: Environment, ghost first: seq<Event>) returns (o: Outcome, ghost second: seq<Event>)
    requires env.log == Recovered(first) && OwnershipHistory(first, Confirmed)
    modifies env
    ensures EndedLate(env.log, first, second, o)
  {
    hide OwnershipHistory, Recovered;
    var owned;
    owned, second := RecoverDaemonOwnership(env);
    if !owned.Confirmed? {
      return if owned.Failed? then Threw else Stopped, second;
    }
    var allowed := env.CanRecover();
    if !allowed {
      return Stopped, second;
    }
    var pending := env.HasPendingRequest();
    if pending {
      assert env.log == Recovered(first) + second + [Allowed(true), RequestPending(true)];
      return Retry, second;
    }
    env.Tell(ToldReady);
    assert env.log == Recovered(first) + second + [Allowed(true), RequestPending(false), ToldReady];
    o := Ready;
  }

  /**
    The order in which a cycle asks and announces, event by event, and what its last event says about
    how it ended. Together with the first event these fix the whole cycle.
   */
  lemma CycleLaw(log: seq<Event>, first: seq<Event>, second: seq<Event>, o: Outcome)
    requires EndedEarly(log, first, o) || EndedLate(log, first, second, o)
    ensures log != [] && log[0].Allowed?
    ensures forall i :: 0 <= i < |log| - 1 ==> Follows(log, i)
    ensures var last := log[|log| - 1];
            && (o == Stopped <==> last == Allowed(false) || last == ToldContended)
            && (o == Threw <==> last == Allowed(true) || last == Owns(false))
            && (o == Retry <==> last == RequestPending(true))
            && (o == Ready <==> last == ToldReady)
  {
    if EndedEarly(log, first, o) {
      EarlyLaw(log, first, o);
    } else {
      LateLaw(log, first, second, o);
    }
  }

  lemma EarlyLaw(log: seq<Event>, first: seq<Event>, o: Outcome)
    requires EndedEarly(log, first, o)
    ensures log != [] && log[0].Allowed?
    ensures forall i :: 0 <= i < |log| - 1 ==> Follows(log, i)
    ensures var last := log[|log| - 1];
            && (o == Stopped <==> last == Allowed(false) || last == ToldContended)
            && (o == Threw <==> last == Allowed(true) || last == Owns(false))
            && (o == Retry <==> last == RequestPending(true))
            && (o == Ready <==> last == ToldReady)
  {
  }

  lemma LateLaw(log: seq<Event>, first: seq<Event>, second: seq<Event>, o: Outcome)
    requires EndedLate(log, first, second, o)
    ensures log != [] && log[0].Allowed?
    ensures forall i :: 0 <= i < |log| - 1 ==> Follows(log, i)
    ensures var last := log[|log| - 1];
            && (o == Stopped <==> last == Allowed(false) || last == ToldContended)
            && (o == Threw <==> last == Allowed(true) || last == Owns(false))
            && (o == Retry <==> last == RequestPending(true))
            && (o == Ready <==> last == ToldReady)
  {
    var head := Recovered(first);
    var tail := TailOf(log, first, second, o);
    HeadLaw(first);
    hide Recovered, EndedLate, OwnershipHistory;
    forall i | 0 <= i < |log| - 1 ensures Follows(log, i) {
      if i < |head| - 1 {
        assert Follows(head, i) && log[..i] == head[..i];
      } else {
        assert log[|head| - 2] in log[..i];
        assert i >= |head| ==> Continues(tail, i - |head|) && log[i] == tail[i - |head|] && log[i + 1] == tail[i - |head| + 1];
        assert i > |head| ==> log[i - 1] == tail[i - |head| - 1];
      }
    }
  }

  lemma HeadLaw(first: seq<Event>)
    requires OwnershipHistory(first, Confirmed)
    ensures var head := Recovered(first);
            && |head| > 2 && head[0] == head[|head| - 1] == Allowed(true) && head[|head| - 2] == RuntimeRecovered
            && forall i :: 0 <= i < |head| - 1 ==> Follows(head, i)
  {
    if first == [Owns(true)] {
      assert Recovered(first) == [Allowed(true), Owns(true), Allowed(true), RuntimeRecovered, Allowed(true)];
    } else {
      assert Recovered(first) == [Allowed(true), Owns(false), Reacquired(true), ToldReacquired, Allowed(true), RuntimeRecovered, Allowed(true)];
    }
  }

  /** The second half of a late cycle. */
  lemma TailOf(log: seq<Event>, first: seq<Event>, second: seq<Event>, o: Outcome) returns (tail: seq<Event>)
    requires EndedLate(log, first, second, o)
    ensures log == Recovered(first) + tail
    ensures tail == [] ==> o == Threw
    ensures tail != [] ==>
              var last := tail[|tail| - 1];
              && tail[0].Owns?
              && (o == Stopped <==> last == Allowed(false) || last == ToldContended)
              && (o == Threw <==> last == Allowed(true) || last == Owns(false))
              && (o == Retry <==> last == RequestPending(true))
              && (o == Ready <==> last == ToldReady)
    ensures RuntimeRecovered !in tail && forall i :: 0 <= i < |tail| - 1 ==> Continues(tail, i)
  {
    tail := log[|Recovered(first)|..];
    hide Recovered;
    if o == Threw || (o == Stopped && OwnershipHistory(second, Contended)) {
      assert tail == second;
      AskedLaw(tail, o);
    } else {
      assert OwnershipHistory(second, Confirmed);
      var rest := match o
        case Ready => [Allowed(true), RequestPending(false), ToldReady]
        case Retry => [Allowed(true), RequestPending(true)]
        case _ => [Allowed(false)];
      assert tail == second + rest;
      ConfirmedLaw(second, rest, o);
    }
  }

  lemma AskedLaw(tail: seq<Event>, o: Outcome)
    requires (o == Threw && OwnershipHistory(tail, Failed)) || (o == Stopped && OwnershipHistory(tail, Contended))
    ensures tail == [] ==> o == Threw
    ensures tail != [] ==>
              var last := tail[|tail| - 1];
              && tail[0].Owns?
              && (o == Stopped <==> last == Allowed(false) || last == ToldContended)
              && (o == Threw <==> last == Allowed(true) || last == Owns(false))
              && (o == Retry <==> last == RequestPending(true))
              && (o == Ready <==> last == ToldReady)
    ensures RuntimeRecovered !in tail && forall i :: 0 <= i < |tail| - 1 ==> Continues(tail, i)
  {
  }

  lemma ConfirmedLaw(second: seq<Event>, rest: seq<Event>, o: Outcome)
    requires OwnershipHistory(second, Confirmed)
    requires || (o == Ready && rest == [Allowed(true), RequestPending(false), ToldReady])
             || (o == Retry && rest == [Allowed(true), RequestPending(true)])
             || (o == Stopped && rest == [Allowed(false)])
    ensures (second + rest) == [] ==> o == Threw
    ensures (second + rest) != [] ==>
              var last := (second + rest)[|(second + rest)| - 1];
              && (second + rest)[0].Owns?
              && (o == Stopped <==> last == Allowed(false) || last == ToldContended)
              && (o == Threw <==> last == Allowed(true) || last == Owns(false))
              && (o == Retry <==> last == RequestPending(true))
              && (o == Ready <==> last == ToldReady)
    ensures RuntimeRecovered !in (second + rest) && forall i :: 0 <= i < |(second + rest)| - 1 ==> Continues((second + rest), i)
  {
    var tail := second + rest;
    if second == [Owns(true)] {
      assert tail == [Owns(true)] + rest;
    } else {
      assert tail == [Owns(false), Reacquired(true), ToldReacquired] + rest;
    }
  }

  /** What comes after the event at `i` of the second half. */
  ghost predicate Continues(tail: seq<Event>, i: nat)
    requires i + 1 < |tail|
  {
    if tail[i].Allowed? then i > 0 && tail[i].b && tail[i + 1].RequestPending? else Follows(tail, i)
  }

  /** What comes after the event at `i`. */
  ghost predicate Follows(log: seq<Event>, i: nat)
    requires i + 1 < |log|
  {
    match log[i]
    case Allowed(b) =>
      b && (if i == 0 || log[i - 1] == RuntimeRecovered then log[i + 1].Owns?
            else if RuntimeRecovered in log[..i] then log[i + 1].RequestPending?
            else log[i + 1] == RuntimeRecovered)
    case Owns(b) => if b then log[i + 1].Allowed? else log[i + 1].Reacquired?
    case Reacquired(b) => log[i + 1] == if b then ToldReacquired else ToldContended
    case ToldReacquired => log[i + 1].Allowed?
    case RuntimeRecovered => log[i + 1].Allowed?
    case RequestPending(b) => !b && log[i + 1] == ToldReady
    case ToldContended => false
    case ToldReady => false
  }
}
