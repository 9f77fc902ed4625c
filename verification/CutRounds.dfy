// A round of tool calls that is cut anywhere, put together: what each call went through, what
// the round was handed and emitted, and what closing it leaves (ToolDispatcher.dispatch_many in
// max_ai/core/tool/dispatcher.py, _execute_tools and _answer_unanswered in
// max_ai/base/reasoning.py, the resume of max_ai/capabilities/reasoning/react/loop.py).
module CutRounds {
  import opened Common
  import opened Transcript
  import opened ToolCall
  import opened InterruptedRound
  import opened ToolRuns
  import ToolRound
  import Schedules

  // One call of the assistant in a round: what happened to it before the round began (nothing,
  // in the round that follows the assistant's message) and since.
  datatype Turn = Turn(id: Id, earlier: seq<Event>, since: seq<Event>)

  function Earlier(t: Turn): History {
    History(t.id, t.earlier)
  }

  function Whole(t: Turn): History {
    History(t.id, t.earlier + t.since)
  }

  // The record when the round is cut.
  function RecordNow(t: Turn): Record {
    RecordOf(Whole(t))
  }

  // A round is handed the calls that are not consumed when it begins.
  predicate Pending(t: Turn) {
    RecordOf(Earlier(t)).status != Consumed
  }

  function Handed(turns: seq<Turn>): seq<Turn> {
    if turns == [] then []
    else Handed(turns[..|turns| - 1]) + if Pending(turns[|turns| - 1]) then [turns[|turns| - 1]] else []
  }

  ghost function RecordsOf(turns: seq<Turn>): (records: seq<Record>)
    ensures |records| == |turns| && forall i :: 0 <= i < |records| ==> records[i] == RecordNow(turns[i])
  {
    seq(|turns|, i requires 0 <= i < |turns| => RecordNow(turns[i]))
  }

  ghost predicate DistinctCalls(turns: seq<Turn>) {
    forall i, j :: 0 <= i < j < |turns| ==> turns[i].id != turns[j].id
  }

  ghost function CallsOf(turns: seq<Turn>): set<Id> {
    set t | t in turns :: t.id
  }

  lemma {:induction false} HandedArePending(turns: seq<Turn>)
    requires DistinctCalls(turns)
    ensures forall t :: t in Handed(turns) <==> t in turns && Pending(t)
    ensures DistinctCalls(Handed(turns))
  {
    hide Pending;
    if turns != [] {
      var early, last := turns[..|turns| - 1], turns[|turns| - 1];
      HandedArePending(early);
      LastIsNew(early, last);
      assert turns == early + [last];
      var kept := Handed(early);
      assert Handed(turns) == kept + if Pending(last) then [last] else [];
      hide Handed;
      OneMoreCall(kept, early, last);
    }
  }

  lemma LastIsNew(early: seq<Turn>, last: Turn)
    requires DistinctCalls(early + [last])
    ensures forall t :: t in early ==> t.id != last.id
  {
    var turns := early + [last];
    forall t | t in early ensures t.id != last.id {
      var i :| 0 <= i < |early| && early[i] == t;
      assert turns[i].id != turns[|early|].id;
    }
  }

  lemma OneMoreCall(kept: seq<Turn>, early: seq<Turn>, last: Turn)
    requires DistinctCalls(kept) && (forall t :: t in kept ==> t in early) && forall t :: t in early ==> t.id != last.id
    ensures DistinctCalls(kept + [last])
  {
    assert forall i :: 0 <= i < |kept| ==> kept[i] in early;
  }

  // ---- Answers ---------------------------------------------------------------------------

  // The message carries a result that some dispatch of its call returned.
  ghost predicate Carries(m: Message, h: History) {
    m.Tool? && m.callId == h.id && exists done :: HasReturned(h, done) && m.text == done.payload
  }

  ghost predicate Backed(results: seq<Message>, turns: seq<Turn>) {
    forall m :: m in results ==> exists t :: t in turns && Carries(m, Whole(t))
  }

  ghost predicate BackedEarlier(results: seq<Message>, turns: seq<Turn>) {
    forall m :: m in results ==> exists t :: t in turns && Carries(m, Earlier(t))
  }

  lemma ReturnedGoesOn(t: Turn, done: ToolResult)
    requires HasReturned(Earlier(t), done)
    ensures HasReturned(Whole(t), done)
  {
    var k :| ReturnedAt(Earlier(t), k, done);
    assert Whole(t).events[..k] == t.earlier[..k];
    assert ReturnedAt(Whole(t), k, done);
  }

  lemma EarlierBacks(results: seq<Message>, turns: seq<Turn>)
    requires BackedEarlier(results, turns)
    ensures Backed(results, turns)
  {
    forall m | m in results ensures exists t :: t in turns && Carries(m, Whole(t)) {
      var t :| t in turns && Carries(m, Earlier(t));
      var done :| HasReturned(Earlier(t), done) && m.text == done.payload;
      ReturnedGoesOn(t, done);
      assert Carries(m, Whole(t));
    }
  }

  // The round ran these calls, and where a dispatch ended with an answer, the history says so.
  ghost predicate Ran(calls: seq<ToolRound.Call>, endings: seq<Schedules.Outcome>, turns: seq<Turn>) {
    && |calls| == |endings| == |turns|
    && (forall i :: 0 <= i < |calls| ==> calls[i].id == turns[i].id)
    && forall i :: 0 <= i < |calls| ==> EndedAs(turns[i], endings[i])
  }

  ghost predicate EndedAs(t: Turn, ending: Schedules.Outcome) {
    ending.Answer? ==> exists done :: HasReturned(Whole(t), done) && done.payload == ending.text
  }

  // What a round emits is backed by what happened to its calls.
  lemma {:induction false} EmittedIsBacked(
    calls: seq<ToolRound.Call>, endings: seq<Schedules.Outcome>, turns: seq<Turn>, n: nat, nameOf: Id -> Name)
    requires Ran(calls, endings, turns) && n <= |calls|
    ensures Backed(AsResults(ToolRound.Emitted(calls[..n], endings[..n]), nameOf), turns)
  {
    if n > 0 {
      var k := n - 1;
      EmittedIsBacked(calls, endings, turns, k, nameOf);
      assert calls[..n][..k] == calls[..k] && endings[..n][..k] == endings[..k];
      var early := AsResults(ToolRound.Emitted(calls[..k], endings[..k]), nameOf);
      var all := AsResults(ToolRound.Emitted(calls[..n], endings[..n]), nameOf);
      if endings[k].Answer? {
        var last := AsResult(ToolRound.Message(calls[k].id, endings[k].text), nameOf(calls[k].id));
        assert all == early + [last];
        assert EndedAs(turns[k], endings[k]);
        assert turns[k] in turns && Carries(last, Whole(turns[k]));
      } else {
        assert all == early;
      }
    }
  }

  // In every round, an answered call has a consumed record.
  lemma AnsweredIsConsumed(results: seq<Message>, turns: seq<Turn>, t: Turn)
    requires t in turns && DistinctCalls(turns) && Backed(results, turns) && t.id in ResultIds(results)
    ensures RecordNow(t).status == Consumed
  {
    var k :| 0 <= k < |results| && results[k].Tool? && results[k].callId == t.id;
    assert results[k] in results;
    var u :| u in turns && Carries(results[k], Whole(u));
    SameCall(turns, t, u);
    var done :| HasReturned(Whole(u), done);
    ReturnedStays(Whole(u), done);
  }

  lemma SameCall(turns: seq<Turn>, t: Turn, u: Turn)
    requires DistinctCalls(turns) && t in turns && u in turns && t.id == u.id
    ensures t == u
  {
    var i :| 0 <= i < |turns| && turns[i] == t;
    var j :| 0 <= j < |turns| && turns[j] == u;
  }

  // ---- A cut round -----------------------------------------------------------------------

  // A transcript as it stands when a round is cut: accepted before the assistant's calls, whose
  // ids are fresh, then results that dispatches returned, in this round or in earlier ones.
  ghost predicate Interrupted(before: seq<Message>, caller: Message, results: seq<Message>, turns: seq<Turn>) {
    && Accepted(before) && !caller.Tool? && CallIds(caller) !! ResultIds(before)
    && DistinctCalls(turns) && CallsOf(turns) == CallIds(caller)
    && AllResults(results) && DistinctIds(results) && Backed(results, turns)
  }

  // The transcript once the round has been closed over the records it was handed.
  ghost function Closed(
    before: seq<Message>, caller: Message, results: seq<Message>, turns: seq<Turn>, names: seq<Name>): seq<Message>
    requires |names| == |Handed(turns)|
  {
    before + [caller] + results + Closing(before, caller, results, RecordsOf(Handed(turns)), names)
  }

  // The call's record once the round has been closed.
  ghost function ClosedRecord(t: Turn, answered: set<Id>): Record {
    if Pending(t) then Cut(RecordNow(t), answered) else RecordNow(t)
  }

  lemma IdsOfTurns(turns: seq<Turn>)
    requires DistinctCalls(turns)
    ensures DistinctRecords(RecordsOf(turns)) && IdsOf(RecordsOf(turns)) == CallsOf(turns)
    ensures forall r :: r in RecordsOf(turns) ==> Settled(r)
  {
    hide Settled, RecordNow;
    var records := RecordsOf(turns);
    forall i | 0 <= i < |turns| ensures records[i].id == turns[i].id && Settled(records[i]) {
      RecordIsItsOwn(turns[i]);
    }
    forall id ensures id in IdsOf(records) <==> id in CallsOf(turns) {
      if id in CallsOf(turns) {
        var i :| 0 <= i < |turns| && turns[i].id == id;
        assert records[i] in records;
      }
    }
  }

  lemma RecordIsItsOwn(t: Turn)
    ensures RecordNow(t).id == t.id && Settled(RecordNow(t))
  {
    RunLeavesRecordSettled(t.id, t.earlier + t.since);
  }

  lemma InterruptedIsCutShort(before: seq<Message>, caller: Message, results: seq<Message>, turns: seq<Turn>)
    requires Interrupted(before, caller, results, turns)
    ensures CutShort(before, caller, results, RecordsOf(Handed(turns)))
    ensures CallsOf(Handed(turns)) <= CallIds(caller)
  {
    HandedArePending(turns);
    IdsOfTurns(Handed(turns));
    assert CallsOf(Handed(turns)) <= CallsOf(turns);
    forall id | id in ResultIds(results) ensures id in CallIds(caller) {
      var k :| 0 <= k < |results| && results[k].Tool? && results[k].callId == id;
      assert results[k] in results;
    }
  }

  // A call that was consumed when the round began stays as it was.
  lemma NotPendingIsConsumed(t: Turn)
    requires !Pending(t)
    ensures RecordNow(t).status == Consumed && RecordNow(t) == RecordOf(Earlier(t))
  {
    AlwaysSafe(t.id, t.earlier);
    ResultIsFinal(t.id, t.earlier, t.since);
    AfterConcat(Fresh(t.id), t.earlier, t.since);
  }

  // Wherever a round is cut, first or resumed, and whatever its calls went through: once it is
  // closed, every record is consumed if and only if no unanswered call is executing.
  lemma EveryRecordIsConsumed(before: seq<Message>, caller: Message, results: seq<Message>, turns: seq<Turn>)
    requires Interrupted(before, caller, results, turns)
    ensures var answered := AnsweredIds(before + [caller] + results);
            (forall t :: t in turns ==> ClosedRecord(t, answered).status == Consumed)
            <==> forall t :: t in turns ==> t.id in ResultIds(results) || RecordNow(t).status != Executing
  {
    hide RecordNow, Pending, Backed;
    var answered := AnsweredIds(before + [caller] + results);
    AnsweredHere(before, caller, results);
    forall t | t in turns
      ensures ClosedRecord(t, answered).status == Consumed
              <==> t.id in ResultIds(results) || RecordNow(t).status != Executing
    {
      assert t.id in CallsOf(turns);
      assert t.id in answered <==> t.id in ResultIds(results);
      RecordIsItsOwn(t);
      CutConsumesIff(RecordNow(t), answered);
      if !Pending(t) { NotPendingIsConsumed(t); }
      if t.id in ResultIds(results) { AnsweredIsConsumed(results, turns, t); }
    }
  }

  // And the transcript is accepted if and only if every call has its result, or was handed to
  // the round and is not executing. What stays open: a call that is executing, and one that had
  // been consumed before the round began without its result ever reaching the transcript.
  lemma ClosedTranscriptAcceptedIff(
    before: seq<Message>, caller: Message, results: seq<Message>, turns: seq<Turn>, names: seq<Name>)
    requires |names| == |Handed(turns)| && Interrupted(before, caller, results, turns)
    ensures Accepted(Closed(before, caller, results, turns, names))
            <==> forall t :: t in turns ==>
                   t.id in ResultIds(results) || (Pending(t) && RecordNow(t).status != Executing)
  {
    hide RecordNow, Pending, Backed, Closing, Handed, Accepted, CutShort;
    InterruptedIsCutShort(before, caller, results, turns);
    InterruptedRoundIsWholeIff(before, caller, results, RecordsOf(Handed(turns)), names);
    HandedArePending(turns);
    IdsOfTurns(Handed(turns));
    var closing := IdsOf(RecordsOf(Handed(turns))) - StillExecuting(RecordsOf(Handed(turns)));
    forall t | t in turns ensures t.id in closing <==> Pending(t) && RecordNow(t).status != Executing {
      HandedNotExecuting(turns, t);
    }
    CoveredIff(turns, ResultIds(results), closing);
  }

  lemma CoveredIff(turns: seq<Turn>, had: set<Id>, closing: set<Id>)
    ensures CallsOf(turns) <= had + closing <==> forall t :: t in turns ==> t.id in had || t.id in closing
  {
    assert forall t :: t in turns ==> t.id in CallsOf(turns);
  }

  lemma HandedNotExecuting(turns: seq<Turn>, t: Turn)
    requires DistinctCalls(turns) && t in turns
    ensures t.id in IdsOf(RecordsOf(Handed(turns))) - StillExecuting(RecordsOf(Handed(turns)))
            <==> Pending(t) && RecordNow(t).status != Executing
  {
    hide RecordNow, Pending;
    var handed := Handed(turns);
    var records := RecordsOf(handed);
    HandedArePending(turns);
    IdsOfTurns(handed);
    if t.id in CallsOf(handed) {
      var u :| u in handed && u.id == t.id;
      SameCall(turns, t, u);
      var i :| 0 <= i < |handed| && handed[i] == t;
      assert records[i] in records;
      RecordIsItsOwn(t);
      if t.id in StillExecuting(records) {
        var r :| r in records && r.status == Executing && r.id == t.id;
        var j :| 0 <= j < |records| && records[j] == r;
        RecordIsItsOwn(handed[j]);
        assert i == j;
      }
    } else {
      assert t !in handed;
    }
  }

  // Where nothing was consumed unanswered before the round began, only executing calls matter,
  // and the two conditions are one.
  lemma ClosedTranscriptAcceptedUnlessExecuting(
    before: seq<Message>, caller: Message, results: seq<Message>, turns: seq<Turn>, names: seq<Name>)
    requires |names| == |Handed(turns)| && Interrupted(before, caller, results, turns)
    requires forall t :: t in turns && !Pending(t) ==> t.id in ResultIds(results)
    ensures Accepted(Closed(before, caller, results, turns, names))
            <==> forall t :: t in turns ==> t.id in ResultIds(results) || RecordNow(t).status != Executing
  {
    ClosedTranscriptAcceptedIff(before, caller, results, turns, names);
  }

  // A whole round, given what had been answered before it, how its dispatches ended and how far
  // it got.
  lemma CutRoundClosesIff(
    before: seq<Message>, caller: Message, had: seq<Message>, turns: seq<Turn>,
    calls: seq<ToolRound.Call>, endings: seq<Schedules.Outcome>, completed: nat, nameOf: Id -> Name, names: seq<Name>)
    requires |names| == |Handed(turns)| && Ran(calls, endings, Handed(turns)) && completed <= |calls|
    requires Interrupted(before, caller, had, turns) && BackedEarlier(had, turns)
    ensures var emitted := AsResults(ToolRound.Emitted(calls[..completed], endings[..completed]), nameOf);
            && Interrupted(before, caller, had + emitted, turns)
            && (Accepted(Closed(before, caller, had + emitted, turns, names))
                <==> forall t :: t in turns ==>
                       t.id in ResultIds(had + emitted) || (Pending(t) && RecordNow(t).status != Executing))
  {
    var emitted := AsResults(ToolRound.Emitted(calls[..completed], endings[..completed]), nameOf);
    HandedArePending(turns);
    EmittedAddsToInterrupted(before, caller, had, turns, calls, endings, completed, nameOf);
    ClosedTranscriptAcceptedIff(before, caller, had + emitted, turns, names);
  }

  lemma EmittedAddsToInterrupted(
    before: seq<Message>, caller: Message, had: seq<Message>, turns: seq<Turn>,
    calls: seq<ToolRound.Call>, endings: seq<Schedules.Outcome>, completed: nat, nameOf: Id -> Name)
    requires Ran(calls, endings, Handed(turns)) && completed <= |calls|
    requires Interrupted(before, caller, had, turns) && BackedEarlier(had, turns)
    ensures Interrupted(before, caller,
                        had + AsResults(ToolRound.Emitted(calls[..completed], endings[..completed]), nameOf), turns)
  {
    hide Accepted, Carries, Pending;
    var handed := Handed(turns);
    var emitted := AsResults(ToolRound.Emitted(calls[..completed], endings[..completed]), nameOf);
    HandedArePending(turns);
    EmittedIsBacked(calls, endings, handed, completed, nameOf);
    RoundEmitsDistinctResults(calls[..completed], endings[..completed], nameOf);
    forall id | id in ResultIds(emitted) ensures id !in ResultIds(had) {
      var i :| 0 <= i < completed && calls[i].id == id;
      assert handed[i] in handed;
      PendingIsUnanswered(had, turns, handed[i]);
    }
    DistinctIdsConcat(had, emitted);
    assert Backed(had + emitted, turns);
  }

  // A call the round is handed has no result from before.
  lemma PendingIsUnanswered(had: seq<Message>, turns: seq<Turn>, t: Turn)
    requires DistinctCalls(turns) && t in turns && Pending(t) && BackedEarlier(had, turns)
    ensures t.id !in ResultIds(had)
  {
    if t.id in ResultIds(had) {
      var k :| 0 <= k < |had| && had[k].Tool? && had[k].callId == t.id;
      assert had[k] in had;
      var u :| u in turns && Carries(had[k], Earlier(u));
      SameCall(turns, t, u);
      var done :| HasReturned(Earlier(u), done);
      ReturnedStays(Earlier(u), done);
      assert false;
    }
  }
}
