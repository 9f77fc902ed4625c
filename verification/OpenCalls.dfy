// Rounds that leave a call open although they are closed: what brings it about, step by step.
module OpenCalls {
  import opened Common
  import opened Transcript
  import opened ToolCall
  import opened InterruptedRound
  import opened ToolRuns
  import opened CutRounds
  import Policy
  import ToolRound
  import Schedules

  const PLAIN := Request(false, Ordinary(false), true, Policy.Allow, true, false)
  const WATCHED := Request(false, Ordinary(false), true, Policy.Allow, true, true)

  // The tool has run, and its tool_response middleware raises.
  function RaisedUpon(id: Id, done: ToolResult): Turn {
    Turn(id, [], [Dispatch(0, WATCHED), MiddlewareAnswers(0, None), ToolEnds(0, Returned(done)), MiddlewareFails(0)])
  }

  // The tool is still running.
  function StillRunning(id: Id): Turn {
    Turn(id, [], [Dispatch(0, PLAIN)])
  }

  // The tool_request middleware raises, and the tool never starts.
  function NeverStarted(id: Id): Turn {
    Turn(id, [], [Dispatch(0, WATCHED), MiddlewareFails(0)])
  }

  // The process died while the tool was running; the call was failed when the session came
  // back, and then the round resumes.
  function Stale(id: Id): Turn {
    Turn(id, [Dispatch(0, PLAIN), Crash, FailStale], [])
  }

  // A call that still waits for the user's approval.
  function Waiting(id: Id): Turn {
    Turn(id, [], [])
  }

  lemma AfterOne(w: World, a: Event)
    ensures After(w, [a]) == Next(w, a)
  {
    assert [a][..0] == [];
  }

  lemma AfterTwo(w: World, a: Event, b: Event)
    ensures After(w, [a, b]) == Next(Next(w, a), b)
  {
    assert [a, b][..1] == [a];
    AfterOne(w, a);
  }

  lemma AfterThree(w: World, a: Event, b: Event, c: Event)
    ensures After(w, [a, b, c]) == Next(Next(Next(w, a), b), c)
  {
    assert [a, b, c][..2] == [a, b];
    AfterTwo(w, a, b);
  }

  // A fresh call under an allowing policy starts at once, or goes to its middleware.
  lemma AllowedCallStarts(id: Id)
    ensures var approved := Record(id, AutoApproved, true, None, None);
            && Next(Fresh(id), Dispatch(0, WATCHED)) ==
               World(approved, map[0 := AwaitingMiddleware(Policy.Allow, true)], [])
            && Next(Fresh(id), Dispatch(0, PLAIN)) ==
               World(approved.(status := Executing), map[0 := Executes(Policy.Allow, false)],
                     [Start(Policy.Allow, true)])
  {
  }

  lemma RaisedUponStaysExecuting(id: Id, done: ToolResult)
    ensures RecordNow(RaisedUpon(id, done)).status == Executing
  {
    var events := RaisedUpon(id, done).since;
    assert [] + events == events && events[..3] == [events[0], events[1], events[2]];
    AfterThree(Fresh(id), events[0], events[1], events[2]);
    AllowedCallStarts(id);
    var begun := Next(Fresh(id), events[0]);
    assert Next(begun, events[1]).record.status == Executing;
    assert Next(begun, events[1]).phases == map[0 := Executes(Policy.Allow, true)];
    assert After(Fresh(id), events) == Next(After(Fresh(id), events[..3]), events[3]);
  }

  lemma StillRunningIsExecuting(id: Id)
    ensures RecordNow(StillRunning(id)).status == Executing
  {
    assert [] + [Dispatch(0, PLAIN)] == [Dispatch(0, PLAIN)];
    AfterOne(Fresh(id), Dispatch(0, PLAIN));
    AllowedCallStarts(id);
  }

  lemma NeverStartedIsNotExecuting(id: Id)
    ensures RecordNow(NeverStarted(id)).status == AutoApproved
  {
    var events := NeverStarted(id).since;
    assert [] + events == [events[0], events[1]];
    AfterTwo(Fresh(id), events[0], events[1]);
    AllowedCallStarts(id);
  }

  lemma StaleIsConsumed(id: Id)
    ensures !Pending(Stale(id)) && RecordNow(Stale(id)).status == Consumed
  {
    var events := Stale(id).earlier;
    assert events + [] == events == [events[0], events[1], events[2]];
    AfterThree(Fresh(id), events[0], events[1], events[2]);
    AllowedCallStarts(id);
  }

  // The assistant's message with these calls.
  function Asking(ids: seq<Id>, tool: Name): Message {
    Assistant(Name("llm"), "", seq(|ids|, i requires 0 <= i < |ids| => Call(ids[i], tool, map[])))
  }

  lemma AskingMakesTheCalls(ids: seq<Id>, tool: Name)
    ensures CallIds(Asking(ids, tool)) == set id | id in ids
  {
    var calls := Asking(ids, tool).calls;
    assert forall i :: 0 <= i < |ids| ==> calls[i] in calls && calls[i].id == ids[i];
  }

  // Closing a round whose tool_response middleware raised leaves its record executing, and the
  // transcript is not accepted.
  lemma RaisingMiddlewareLeavesCallOpen(id: Id, tool: Name, done: ToolResult, names: seq<Name>)
    requires |names| == |Handed([RaisedUpon(id, done)])|
    ensures var t := RaisedUpon(id, done);
            && Interrupted([], Asking([id], tool), [], [t]) && RecordNow(t).status == Executing
            && !Accepted(Closed([], Asking([id], tool), [], [t], names))
  {
    hide RecordNow, Pending, Closed, RaisedUpon;
    var t := RaisedUpon(id, done);
    AskingMakesTheCalls([id], tool);
    RaisedUponStaysExecuting(id, done);
    assert t.id == id by { IdOfRaisedUpon(id, done); }
    assert t in [t];
    ClosedTranscriptAcceptedIff([], Asking([id], tool), [], [t], names);
  }

  lemma IdOfRaisedUpon(id: Id, done: ToolResult)
    ensures RaisedUpon(id, done).id == id
  {
  }

  // So does a round of two read-only calls in which one raises: the other runs on.
  lemma RaisingSiblingLeavesCallOpen(a: Id, b: Id, tool: Name, names: seq<Name>)
    requires a != b && |names| == |Handed([StillRunning(a), NeverStarted(b)])|
    ensures var calls := [ToolRound.Call(a, true), ToolRound.Call(b, true)];
            var moves := [Schedules.Starts(0), Schedules.Starts(1), Schedules.Ends(1)];
            var endings := [Schedules.Answer("late"), Schedules.Raises];
            && ToolRound.BatchesOf(calls) == [calls]
            && Schedules.Schedule(Schedules.Fresh(0, 2), moves, endings, 2)
            && Schedules.Unfinished(Schedules.Fresh(0, 2), moves) == {0}
    ensures var turns := [StillRunning(a), NeverStarted(b)];
            && Interrupted([], Asking([a, b], tool), [], turns) && RecordNow(turns[0]).status == Executing
            && !Accepted(Closed([], Asking([a, b], tool), [], turns, names))
  {
    SiblingSchedule(a, b);
    hide RecordNow, Pending, Closed;
    var turns := [StillRunning(a), NeverStarted(b)];
    AskingMakesTheCalls([a, b], tool);
    StillRunningIsExecuting(a);
    assert turns[0] in turns && turns[1] in turns;
    ClosedTranscriptAcceptedIff([], Asking([a, b], tool), [], turns, names);
  }

  lemma SiblingSchedule(a: Id, b: Id)
    ensures var calls := [ToolRound.Call(a, true), ToolRound.Call(b, true)];
            var moves := [Schedules.Starts(0), Schedules.Starts(1), Schedules.Ends(1)];
            var endings := [Schedules.Answer("late"), Schedules.Raises];
            && ToolRound.BatchesOf(calls) == [calls]
            && Schedules.Schedule(Schedules.Fresh(0, 2), moves, endings, 2)
            && Schedules.Unfinished(Schedules.Fresh(0, 2), moves) == {0}
  {
    var x, y := ToolRound.Call(a, true), ToolRound.Call(b, true);
    assert [x, y][..1] == [x] && [x][..0] == [];
    assert ToolRound.BatchesOf([x]) == [[x]];
    assert [[x]][..0] == [] && [x] + [y] == [x, y];
    var first, both := [Schedules.Starts(0)], [Schedules.Starts(0), Schedules.Starts(1)];
    var moves := [Schedules.Starts(0), Schedules.Starts(1), Schedules.Ends(1)];
    var endings := [Schedules.Answer("late"), Schedules.Raises];
    var start := Schedules.Fresh(0, 2);
    assert start == Schedules.Board({0, 1}, {});
    assert [] + first == first && first + [Schedules.Starts(1)] == both && both + [Schedules.Ends(1)] == moves;
    hide Schedules.Fits, Schedules.BoardAfter;
    NothingYet(start, endings);
    Schedules.FitsOneMore(start, [], Schedules.Starts(0), endings, 2);
    assert {0, 1} - {0} == {1};
    Schedules.FitsOneMore(start, first, Schedules.Starts(1), endings, 2);
    assert {1} - {1} == {} && {0} + {1} - {1} == {0};
    Schedules.FitsOneMore(start, both, Schedules.Ends(1), endings, 2);
  }

  lemma NothingYet(start: Schedules.Board, endings: seq<Schedules.Outcome>)
    ensures Schedules.Fits(start, [], endings, 2) && Schedules.BoardAfter(start, []) == start
  {
  }

  // A resumed round: one call was failed as stale before, so the round is handed only the other.
  // No call is executing and every record ends consumed, but the stale one is never answered.
  lemma StaleCallStaysUnanswered(a: Id, b: Id, tool: Name, names: seq<Name>)
    requires a != b && |names| == |Handed([Stale(a), Waiting(b)])|
    ensures var turns := [Stale(a), Waiting(b)];
            && Interrupted([], Asking([a, b], tool), [], turns)
            && (forall t :: t in turns ==> ClosedRecord(t, {}).status == Consumed && RecordNow(t).status != Executing)
            && !Accepted(Closed([], Asking([a, b], tool), [], turns, names))
  {
    var turns := [Stale(a), Waiting(b)];
    StaleIsConsumed(a);
    assert RecordNow(Waiting(b)) == NewRecord(b);
    hide RecordNow, Pending, Closed;
    AskingMakesTheCalls([a, b], tool);
    assert turns[0] in turns && turns[1] in turns;
    CutConsumesIff(RecordNow(turns[1]), {});
    ClosedTranscriptAcceptedIff([], Asking([a, b], tool), [], turns, names);
  }
}
