/**
  Why at most once needs one live bridge per inbox: the daemon reports a repeated transition as
  unchanged, so two bridges that read the same acknowledged message both go on to start it.
 */
module InboxBridgesWitness {
  import opened Prelude
  import opened InboxBridges

  const SCRIPT: seq<Action> := [
    Create(0), Move(0, Delivered), Spawn(1, Native), Spawn(2, Native),
    Claim(1, 0), Claim(2, 0), Land(1), Land(2), Resume(1, Returned(false)), Resume(2, Returned(false)),
    Land(1), Land(2), Resume(1, Returned(false)), Resume(2, Returned(false)),
    Land(1), Land(2), Resume(1, Returned(false)), Resume(2, Returned(false)),
    Resume(1, Returned(false)), Resume(2, Returned(false))]

  function Both(status: Status, starts: nat, one: Pc, two: Pc): State {
    State(map[0 := Message(status, starts)], map[1 := Bridge(Native, false, one), 2 := Bridge(Native, false, two)])
  }

  function Got(point: Point, status: Status): Pc {
    Waiting(0, point, Reply(status))
  }

  const RUN: seq<State> := [
    State(map[], map[]),
    Alone(Queued),
    Alone(Delivered),
    State(map[0 := Message(Delivered, 0)], map[1 := Bridge(Native, false, Resting)]),
    Both(Delivered, 0, Resting, Resting),
    Both(Delivered, 0, At(0, Read), Resting),
    Both(Delivered, 0, At(0, Read), At(0, Read)),
    Both(Delivered, 0, Got(Read, Delivered), At(0, Read)),
    Both(Delivered, 0, Got(Read, Delivered), Got(Read, Delivered)),
    Both(Delivered, 0, At(0, Acknowledge), Got(Read, Delivered)),
    Both(Delivered, 0, At(0, Acknowledge), At(0, Acknowledge)),
    Both(Acknowledged, 0, Got(Acknowledge, Acknowledged), At(0, Acknowledge)),
    Both(Acknowledged, 0, Got(Acknowledge, Acknowledged), Got(Acknowledge, Acknowledged)),
    Both(Acknowledged, 0, At(0, Promote), Got(Acknowledge, Acknowledged)),
    Both(Acknowledged, 0, At(0, Promote), At(0, Promote)),
    Both(Processing, 0, Got(Promote, Processing), At(0, Promote)),
    Both(Processing, 0, Got(Promote, Processing), Got(Promote, Processing)),
    Both(Processing, 0, At(0, MarkBusy), Got(Promote, Processing)),
    Both(Processing, 0, At(0, MarkBusy), At(0, MarkBusy)),
    Both(Processing, 1, At(0, Work), At(0, MarkBusy)),
    Both(Processing, 2, At(0, Work), At(0, Work))]

  lemma SameState(a: State, b: State)
    requires a.messages == b.messages && a.bridges == b.bridges
    ensures a == b
  {
  }

  /** The two bridges take the same step one after the other. */
  lemma Lands(status: Status, asked: Point, target: Status, two: Pc)
    requires asked.Asks() && Apply(status, Asked(asked)) == (target, Reply(target))
    ensures Next(Both(status, 0, At(0, asked), two), Land(1)) == Some(Both(target, 0, Got(asked, target), two))
    ensures Next(Both(status, 0, two, At(0, asked)), Land(2)) == Some(Both(target, 0, two, Got(asked, target)))
  {
    SameState(Next(Both(status, 0, At(0, asked), two), Land(1)).value, Both(target, 0, Got(asked, target), two));
    SameState(Next(Both(status, 0, two, At(0, asked)), Land(2)).value, Both(target, 0, two, Got(asked, target)));
  }

  function Starting(before: Pc, after: Pc): nat {
    if before.Waiting? && before.point.MarkBusy? && after.Waiting? then 1 else 0
  }

  lemma FirstResumes(status: Status, starts: nat, one: Pc, after: Pc, two: Pc)
    requires one.Waiting? && one.id == 0 && OnEvent(Bridge(Native, false, one), Returned(false)) == Some(after)
    ensures Next(Both(status, starts, one, two), Resume(1, Returned(false)))
         == Some(Both(status, starts + Starting(one, after), after, two))
  {
    hide OnEvent, LandCall;
    SameState(Next(Both(status, starts, one, two), Resume(1, Returned(false))).value,
              Both(status, starts + Starting(one, after), after, two));
  }

  lemma SecondResumes(status: Status, starts: nat, one: Pc, two: Pc, after: Pc)
    requires two.Waiting? && two.id == 0 && OnEvent(Bridge(Native, false, two), Returned(false)) == Some(after)
    ensures Next(Both(status, starts, one, two), Resume(2, Returned(false)))
         == Some(Both(status, starts + Starting(two, after), one, after))
  {
    hide OnEvent, LandCall;
    SameState(Next(Both(status, starts, one, two), Resume(2, Returned(false))).value,
              Both(status, starts + Starting(two, after), one, after));
  }

  function Alone(status: Status): State {
    State(map[0 := Message(status, 0)], map[])
  }

  lemma Begins()
    ensures Next(State(map[], map[]), Create(0)) == Some(Alone(Queued))
    ensures Next(Alone(Queued), Move(0, Delivered)) == Some(Alone(Delivered))
  {
    SameState(Next(Alone(Queued), Move(0, Delivered)).value, Alone(Delivered));
  }

  const BOTH_RESTING := map[1 := Bridge(Native, false, Resting), 2 := Bridge(Native, false, Resting)]

  lemma Spawns(ms: map<nat, Message>)
    ensures var first := State(ms, map[1 := Bridge(Native, false, Resting)]);
            Next(State(ms, map[]), Spawn(1, Native)) == Some(first)
            && Next(first, Spawn(2, Native)) == Some(State(ms, BOTH_RESTING))
  {
    var first := State(ms, map[1 := Bridge(Native, false, Resting)]);
    SameState(Next(State(ms, map[]), Spawn(1, Native)).value, first);
    SameState(Next(first, Spawn(2, Native)).value, State(ms, BOTH_RESTING));
  }

  lemma Claims(two: Pc)
    ensures Next(Both(Delivered, 0, Resting, two), Claim(1, 0)) == Some(Both(Delivered, 0, At(0, Read), two))
    ensures Next(Both(Delivered, 0, two, Resting), Claim(2, 0)) == Some(Both(Delivered, 0, two, At(0, Read)))
  {
    SameState(Next(Both(Delivered, 0, Resting, two), Claim(1, 0)).value, Both(Delivered, 0, At(0, Read), two));
    SameState(Next(Both(Delivered, 0, two, Resting), Claim(2, 0)).value, Both(Delivered, 0, two, At(0, Read)));
  }

  lemma Arrives()
    ensures forall i :: 0 <= i < 6 ==> Next(RUN[i], SCRIPT[i]) == Some(RUN[i + 1])
  {
    hide Next;
    Begins();
    Spawns(map[0 := Message(Delivered, 0)]);
    Claims(Resting);
    Claims(At(0, Read));
  }

  lemma Acknowledges()
    ensures forall i :: 6 <= i < 12 ==> Next(RUN[i], SCRIPT[i]) == Some(RUN[i + 1])
  {
    hide Next;
    Lands(Delivered, Read, Delivered, At(0, Read));
    Lands(Delivered, Read, Delivered, Got(Read, Delivered));
    FirstResumes(Delivered, 0, Got(Read, Delivered), At(0, Acknowledge), Got(Read, Delivered));
    SecondResumes(Delivered, 0, At(0, Acknowledge), Got(Read, Delivered), At(0, Acknowledge));
    Lands(Delivered, Acknowledge, Acknowledged, At(0, Acknowledge));
    Lands(Acknowledged, Acknowledge, Acknowledged, Got(Acknowledge, Acknowledged));
  }

  lemma Starts()
    ensures forall i :: 12 <= i < 20 ==> Next(RUN[i], SCRIPT[i]) == Some(RUN[i + 1])
  {
    hide Next;
    FirstResumes(Acknowledged, 0, Got(Acknowledge, Acknowledged), At(0, Promote), Got(Acknowledge, Acknowledged));
    SecondResumes(Acknowledged, 0, At(0, Promote), Got(Acknowledge, Acknowledged), At(0, Promote));
    Lands(Acknowledged, Promote, Processing, At(0, Promote));
    Lands(Processing, Promote, Processing, Got(Promote, Processing));
    FirstResumes(Processing, 0, Got(Promote, Processing), At(0, MarkBusy), Got(Promote, Processing));
    SecondResumes(Processing, 0, At(0, MarkBusy), Got(Promote, Processing), At(0, MarkBusy));
    FirstResumes(Processing, 0, At(0, MarkBusy), At(0, Work), At(0, MarkBusy));
    SecondResumes(Processing, 1, At(0, Work), At(0, MarkBusy), At(0, Work));
  }

  /** Two live bridges on one inbox: the executor is started twice for one message. */
  lemma TwoBridgesStartTwice()
    ensures IsRun(RUN, SCRIPT) && !FreshExclusive(RUN[10])
    ensures RUN[20].messages[0].starts == 2
  {
    hide Next;
    Arrives();
    Acknowledges();
    Starts();
    assert HoldingAt(RUN[10], 1, 0) && HoldingAt(RUN[10], 2, 0) && Fresh(RUN[10], 0);
  }
}
