// Closing a round of tool calls that was cut short
// (BaseReasoning._answer_unanswered in max_ai/base/reasoning.py).
module InterruptedRound {
  import opened Common
  import opened Transcript
  import opened ToolCall
  import ToolRuns
  import ToolRound
  import Schedules

  function ResultMessage(toolName: Name, r: ToolResult): Message {
    Tool(toolName, r.payload, r.callId, toolName, r.success, None, false)
  }

  ghost function AnsweredIds(messages: seq<Message>): set<Id> {
    ResultIds(messages)
  }

  // The record after the cut: a call that never started is closed as cancelled.
  function Cut(r: Record, answered: set<Id>): Record {
    if r.id in answered || r.status == Consumed || r.status == Executing then r
    else r.(status := Consumed, result := Some(Failure(r.id, CancelledBeforeStart)))
  }

  // The message a record still owes, if it has anything to say.
  function Owed(r: Record, name: Name, answered: set<Id>): seq<Message> {
    var cut := Cut(r, answered);
    if r.id !in answered && cut.result.Some? then [ResultMessage(name, cut.result.value)] else []
  }

  // The messages appended for all records, in call order.
  function Appended(records: seq<Record>, names: seq<Name>, answered: set<Id>): seq<Message>
    requires |records| == |names|
  {
    if records == [] then []
    else
      var n := |records| - 1;
      Appended(records[..n], names[..n], answered) + Owed(records[n], names[n], answered)
  }

  lemma AppendedOneMore(records: seq<Record>, names: seq<Name>, answered: set<Id>, n: nat)
    requires |records| == |names| && n < |records|
    ensures Appended(records[..n + 1], names[..n + 1], answered) ==
            Appended(records[..n], names[..n], answered) + Owed(records[n], names[n], answered)
  {
    assert records[..n + 1][..n] == records[..n] && names[..n + 1][..n] == names[..n];
  }

  class RunContext {
    var messages: seq<Message>

    constructor (messages: seq<Message>)
      ensures this.messages == messages
    {
      this.messages := messages;
    }
  }

  ghost function Values(records: seq<ToolCallRecord>): (values: seq<Record>)
    reads set r | r in records
    ensures |values| == |records| && forall i :: 0 <= i < |records| ==> values[i] == records[i].Now()
  {
    seq(|records|, i requires 0 <= i < |records| reads records => records[i].Now())
  }

  ghost function Names(records: seq<ToolCallRecord>): (names: seq<Name>)
    ensures |names| == |records| && forall i :: 0 <= i < |records| ==> names[i] == records[i].toolName
  {
    seq(|records|, i requires 0 <= i < |records| => records[i].toolName)
  }

  // The first `n` records have been closed, the others are as they were.
  ghost predicate ClosedUpTo(records: seq<ToolCallRecord>, values: seq<Record>, n: nat, answered: set<Id>)
    requires |values| == |records|
    reads records
  {
    forall i :: 0 <= i < |records| ==> records[i].Now() == if i < n then Cut(values[i], answered) else values[i]
  }

  method AnswerUnanswered(ctx: RunContext, records: seq<ToolCallRecord>)
    requires forall i, j :: 0 <= i < j < |records| ==> records[i] != records[j]
    modifies ctx, set r | r in records
    ensures ctx.messages == old(ctx.messages) +
                            Appended(old(Values(records)), Names(records), AnsweredIds(old(ctx.messages)))
    ensures forall i :: 0 <= i < |records| ==>
                          records[i].Now() == Cut(old(records[i].Now()), AnsweredIds(old(ctx.messages)))
  {
    var messages := ctx.messages;
    var answered := set i | 0 <= i < |messages| && messages[i].Tool? :: messages[i].callId;
    assert answered == AnsweredIds(messages);
    ghost var values, names := Values(records), Names(records);
    CloseAll(ctx, records, answered, values, names);
    AllClosed(records, values, answered);
  }

  // The loop over the records.
  method CloseAll(
    ctx: RunContext, records: seq<ToolCallRecord>, answered: set<Id>, ghost values: seq<Record>, ghost names: seq<Name>)
    requires forall i, j :: 0 <= i < j < |records| ==> records[i] != records[j]
    requires |values| == |names| == |records| && ClosedUpTo(records, values, 0, answered)
    requires forall i :: 0 <= i < |records| ==> names[i] == records[i].toolName
    modifies ctx, set r | r in records
    ensures ctx.messages == old(ctx.messages) + Appended(values, names, answered)
    ensures ClosedUpTo(records, values, |records|, answered)
  {
    hide *;
    ghost var messages := ctx.messages;
    var n := 0;
    NothingAppended(messages, values, names, answered);
    while n < |records|
      invariant 0 <= n <= |records| == |values| == |names|
      invariant ClosedUpTo(records, values, n, answered)
      invariant ctx.messages == WithAppended(messages, values, names, answered, n)
    {
      var owed := CloseNext(records, values, n, answered);
      OneMoreAppended(messages, values, names, answered, n);
      ctx.messages := ctx.messages + owed;
      n := n + 1;
    }
    AllAppended(messages, values, names, answered);
  }

  // The transcript with what the first `n` records owe.
  ghost function WithAppended(
    messages: seq<Message>, records: seq<Record>, names: seq<Name>, answered: set<Id>, n: nat): seq<Message>
    requires n <= |records| == |names|
  {
    messages + Appended(records[..n], names[..n], answered)
  }

  lemma NothingAppended(messages: seq<Message>, records: seq<Record>, names: seq<Name>, answered: set<Id>)
    requires |records| == |names|
    ensures WithAppended(messages, records, names, answered, 0) == messages
  {
  }

  lemma OneMoreAppended(
    messages: seq<Message>, records: seq<Record>, names: seq<Name>, answered: set<Id>, n: nat)
    requires n < |records| == |names|
    ensures WithAppended(messages, records, names, answered, n + 1) ==
            WithAppended(messages, records, names, answered, n) + Owed(records[n], names[n], answered)
  {
    AppendedOneMore(records, names, answered, n);
  }

  lemma AllAppended(messages: seq<Message>, records: seq<Record>, names: seq<Name>, answered: set<Id>)
    requires |records| == |names|
    ensures WithAppended(messages, records, names, answered, |records|) == messages + Appended(records, names, answered)
  {
    assert records[..|records|] == records && names[..|records|] == names;
  }

  lemma AllClosed(records: seq<ToolCallRecord>, values: seq<Record>, answered: set<Id>)
    requires |values| == |records| && ClosedUpTo(records, values, |records|, answered)
    ensures forall i :: 0 <= i < |records| ==> records[i].Now() == Cut(values[i], answered)
  {
  }

  method CloseNext(records: seq<ToolCallRecord>, ghost values: seq<Record>, n: nat, answered: set<Id>)
    returns (owed: seq<Message>)
    requires forall i, j :: 0 <= i < j < |records| ==> records[i] != records[j]
    requires n < |records| == |values| && ClosedUpTo(records, values, n, answered)
    modifies records[n]
    ensures ClosedUpTo(records, values, n + 1, answered)
    ensures owed == Owed(values[n], records[n].toolName, answered)
  {
    hide Owed, Cut;
    owed := CloseRecord(records[n], answered);
  }

  method CloseRecord(record: ToolCallRecord, answered: set<Id>) returns (owed: seq<Message>)
    modifies record
    ensures record.Now() == Cut(old(record.Now()), answered)
    ensures owed == Owed(old(record.Now()), record.toolName, answered)
  {
    if record.id in answered { return []; }
    if record.status != Consumed && record.status != Executing {
      var _ := record.DoForceConsume(Failure(record.id, CancelledBeforeStart));
    }
    owed := if record.result.Some? then [ResultMessage(record.toolName, record.result.value)] else [];
  }

  // ---- The transcript is whole again -----------------------------------------------------

  // What dispatching leaves behind: a record has a result exactly when it is consumed, and
  // the result is its own.
  predicate Settled(r: Record) {
    && (r.status == Consumed <==> r.result.Some?)
    && (r.result.Some? ==> r.result.value.callId == r.id)
  }

  ghost predicate DistinctRecords(records: seq<Record>) {
    forall i, j :: 0 <= i < j < |records| ==> records[i].id != records[j].id
  }

  ghost predicate WasExecuting(records: seq<Record>, answered: set<Id>) {
    exists r :: r in records && r.id !in answered && r.status == Executing
  }

  ghost function IdsOf(records: seq<Record>): set<Id> {
    set r | r in records :: r.id
  }

  ghost function StillExecuting(records: seq<Record>): set<Id> {
    set r | r in records && r.status == Executing :: r.id
  }

  lemma {:induction false} AppendedIds(records: seq<Record>, names: seq<Name>, answered: set<Id>)
    requires |records| == |names| && DistinctRecords(records) && forall r :: r in records ==> Settled(r)
    ensures var added := Appended(records, names, answered);
            && AllResults(added) && DistinctIds(added)
            && ResultIds(added) == IdsOf(records) - answered - StillExecuting(records)
  {
    if records != [] {
      var n := |records| - 1;
      var r, early := records[n], Appended(records[..n], names[..n], answered);
      var owed := Owed(r, names[n], answered);
      AppendedIds(records[..n], names[..n], answered);
      assert records == records[..n] + [r];
      LastRecord(records[..n], r);
      OwedId(r, names[n], answered);
      OneMoreId(IdsOf(records[..n]), answered, StillExecuting(records[..n]), r);
      if owed == [] {
        assert early + owed == early;
      } else {
        ResultIdsLast(early, owed[0]);
        DistinctIdsLast(early, owed[0]);
      }
    }
  }

  lemma OwedId(r: Record, name: Name, answered: set<Id>)
    requires Settled(r)
    ensures var owed := Owed(r, name, answered);
            if r.id in answered || r.status == Executing then owed == []
            else |owed| == 1 && owed[0].Tool? && owed[0].callId == r.id
  {
  }

  lemma OneMoreId(ids: set<Id>, answered: set<Id>, executing: set<Id>, r: Record)
    requires r.id !in ids && executing <= ids
    ensures ids + {r.id} - answered - (executing + if r.status == Executing then {r.id} else {}) ==
            (ids - answered - executing) + if r.id in answered || r.status == Executing then {} else {r.id}
  {
  }

  lemma LastRecord(early: seq<Record>, r: Record)
    requires DistinctRecords(early + [r])
    ensures r.id !in IdsOf(early)
    ensures IdsOf(early + [r]) == IdsOf(early) + {r.id}
    ensures StillExecuting(early + [r]) == StillExecuting(early) + if r.status == Executing then {r.id} else {}
    ensures StillExecuting(early) <= IdsOf(early)
  {
    var all := early + [r];
    forall q | q in early ensures q.id != r.id {
      var i :| 0 <= i < |early| && early[i] == q;
      assert all[i].id != all[|early|].id;
    }
    assert forall q :: q in all <==> q in early || q == r;
  }

  lemma {:induction false} ResultIdsConcat(a: seq<Message>, b: seq<Message>)
    ensures ResultIds(a + b) == ResultIds(a) + ResultIds(b)
  {
    if b == [] {
      assert a + b == a;
    } else {
      var n := |b| - 1;
      assert a + b == (a + b[..n]) + [b[n]] && b == b[..n] + [b[n]];
      ResultIdsConcat(a, b[..n]);
      ResultIdsLast(a + b[..n], b[n]);
      ResultIdsLast(b[..n], b[n]);
    }
  }

  lemma {:induction false} DistinctIdsConcat(a: seq<Message>, b: seq<Message>)
    requires AllResults(a) && AllResults(b) && DistinctIds(a) && DistinctIds(b) && ResultIds(a) !! ResultIds(b)
    ensures AllResults(a + b) && DistinctIds(a + b)
  {
    if b == [] {
      assert a + b == a;
    } else {
      var n := |b| - 1;
      assert a + b == (a + b[..n]) + [b[n]] && b == b[..n] + [b[n]];
      ResultIdsLast(b[..n], b[n]);
      DistinctIdsLast(b[..n], b[n]);
      DistinctIdsConcat(a, b[..n]);
      ResultIdsConcat(a, b[..n]);
      DistinctIdsLast(a + b[..n], b[n]);
    }
  }

  // A round as it stands when it is cut: an accepted transcript, the assistant's calls with
  // fresh ids, whatever results had already arrived, and the records handed over. These need
  // not be all: a resumed round gets only the calls that were not consumed yet.
  ghost predicate CutShort(before: seq<Message>, caller: Message, results: seq<Message>, records: seq<Record>) {
    && Accepted(before)
    && !caller.Tool?
    && AllResults(results) && DistinctIds(results) && ResultIds(results) <= CallIds(caller)
    && CallIds(caller) !! ResultIds(before)
    && DistinctRecords(records) && IdsOf(records) <= CallIds(caller) + ResultIds(before)
    && forall r :: r in records ==> Settled(r)
  }

  // After the cut is closed the transcript is accepted, with one result per call, if and only
  // if every call had its result already, or was handed over and is not still executing.
  lemma InterruptedRoundIsWholeIff(
    before: seq<Message>, caller: Message, results: seq<Message>, records: seq<Record>, names: seq<Name>)
    requires |names| == |records| && CutShort(before, caller, results, records)
    ensures Accepted(before + [caller] + results + Closing(before, caller, results, records, names))
            <==> CallIds(caller) <= ResultIds(results) + (IdsOf(records) - StillExecuting(records))
    ensures Accepted(before + [caller] + results + Closing(before, caller, results, records, names))
            <==> WellFormedBlock([caller] + (results + Closing(before, caller, results, records, names)))
  {
    hide Appended, StillExecuting, Scan, Settled, DistinctRecords, WellFormedBlock;
    var added, answered := Closing(before, caller, results, records, names), ResultIds(before) + ResultIds(results);
    AnsweredHere(before, caller, results);
    AddedToResults(results, records, names, answered);
    WholeIffAllAnswered(before, caller, results + added);
    assert before + [caller] + results + added == before + ([caller] + (results + added));
    assert ResultIds(results + added) == ResultIds(results) + (IdsOf(records) - answered - StillExecuting(records));
    NothingMissingIff(CallIds(caller), ResultIds(before), ResultIds(results), IdsOf(records), StillExecuting(records));
  }

  lemma NothingMissingIff(calls: set<Id>, earlier: set<Id>, had: set<Id>, handed: set<Id>, executing: set<Id>)
    requires had <= calls && calls !! earlier && handed <= calls + earlier
    ensures had + (handed - (earlier + had) - executing) == calls <==> calls <= had + (handed - executing)
  {
    assert had + (handed - (earlier + had) - executing) <= calls;
    assert calls * (had + (handed - executing)) == had + (handed - (earlier + had) - executing) by {
      forall id | id in calls * (had + (handed - executing)) && id !in had
        ensures id in handed - (earlier + had) - executing
      {
      }
    }
  }

  // When every call that is not handed over has its result, only executing calls are in the way.
  lemma HandedOverRoundIsWholeIff(
    before: seq<Message>, caller: Message, results: seq<Message>, records: seq<Record>, names: seq<Name>)
    requires |names| == |records| && CutShort(before, caller, results, records)
    requires CallIds(caller) <= ResultIds(results) + IdsOf(records)
    ensures Accepted(before + [caller] + results + Closing(before, caller, results, records, names))
            <==> !WasExecuting(records, AnsweredIds(before + [caller] + results))
  {
    hide Closing, Scan, Settled, WellFormedBlock;
    InterruptedRoundIsWholeIff(before, caller, results, records, names);
    AnsweredHere(before, caller, results);
    ExecutingIdsAreMissing(CallIds(caller), ResultIds(before), ResultIds(results), records);
  }

  lemma ExecutingIdsAreMissing(calls: set<Id>, earlier: set<Id>, had: set<Id>, records: seq<Record>)
    requires calls !! earlier && calls <= had + IdsOf(records) && IdsOf(records) <= calls + earlier
    requires DistinctRecords(records)
    ensures calls <= had + (IdsOf(records) - StillExecuting(records)) <==> !WasExecuting(records, earlier + had)
  {
    if r :| r in records && r.id !in earlier + had && r.status == Executing {
      assert r.id in IdsOf(records) && r.id in StillExecuting(records);
    } else {
      forall id | id in calls && id !in had ensures id in IdsOf(records) - StillExecuting(records) {
        assert id in StillExecuting(records) ==> exists q :: q in records && q.id == id && q.status == Executing;
      }
    }
  }

  // What `_answer_unanswered` appends to the transcript as it stands.
  ghost function Closing(
    before: seq<Message>, caller: Message, results: seq<Message>, records: seq<Record>, names: seq<Name>): seq<Message>
    requires |names| == |records|
  {
    Appended(records, names, AnsweredIds(before + [caller] + results))
  }

  // The calls seen as answered are those answered before and in this round.
  lemma AnsweredHere(before: seq<Message>, caller: Message, results: seq<Message>)
    requires !caller.Tool?
    ensures AnsweredIds(before + [caller] + results) == ResultIds(before) + ResultIds(results)
  {
    ResultIdsConcat(before + [caller], results);
    ResultIdsLast(before, caller);
  }

  lemma AddedToResults(results: seq<Message>, records: seq<Record>, names: seq<Name>, answered: set<Id>)
    requires |names| == |records| && AllResults(results) && DistinctIds(results) && ResultIds(results) <= answered
    requires DistinctRecords(records) && forall r :: r in records ==> Settled(r)
    ensures var all := results + Appended(records, names, answered);
            && AllResults(all) && DistinctIds(all)
            && ResultIds(all) == ResultIds(results) + (IdsOf(records) - answered - StillExecuting(records))
  {
    var added := Appended(records, names, answered);
    AppendedIds(records, names, answered);
    DistinctIdsConcat(results, added);
    ResultIdsConcat(results, added);
  }

  lemma WholeIffAllAnswered(before: seq<Message>, caller: Message, results: seq<Message>)
    requires Accepted(before) && !caller.Tool? && AllResults(results) && DistinctIds(results)
    ensures Accepted(before + ([caller] + results)) <==> WellFormedBlock([caller] + results)
    ensures WellFormedBlock([caller] + results) <==> ResultIds(results) == CallIds(caller)
  {
    var block := [caller] + results;
    assert block[1..] == results;
    BlockAccepted(block);
    ScanConcat(Some({}), before, block);
  }

  // Which records the cut leaves consumed.
  lemma CutConsumesIff(r: Record, answered: set<Id>)
    ensures Cut(r, answered).status == Consumed
            <==> r.status == Consumed || (r.id !in answered && r.status != Executing)
  {
  }

  // What a cut call's message says: its own result when it had one; and for a call that never
  // started a failure, which is also what its record then holds.
  lemma OwedMessageIs(r: Record, name: Name, answered: set<Id>)
    requires Settled(r) && r.id !in answered && r.status != Executing
    ensures |Owed(r, name, answered)| == 1
    ensures var m := Owed(r, name, answered)[0];
            && m.Tool? && m.callId == r.id && m.tool == name && m.source == name && !m.multimodal
            && (if r.status == Consumed then m.success == r.result.value.success && m.text == r.result.value.payload
                else !m.success)
    ensures r.status != Consumed ==>
              var closed := Cut(r, answered);
              closed.result.Some? && FailsWith(closed.result.value, r.id, CancelledBeforeStart)
  {
  }

  // Whatever happened to a call before the cut, its record is settled: the hypothesis above is
  // one that every run of dispatches meets.
  lemma {:induction false} RunLeavesRecordSettled(id: Id, events: seq<ToolRuns.Event>)
    ensures var r := ToolRuns.After(ToolRuns.Fresh(id), events).record;
            Settled(r) && r.id == id
  {
    ToolRuns.AlwaysSafe(id, events);
  }

  // The transcript entries of a round that was cut after some of its calls.
  function AsResults(messages: seq<ToolRound.Message>, nameOf: Id -> Name): seq<Message> {
    seq(|messages|, i requires 0 <= i < |messages| => AsResult(messages[i], nameOf(messages[i].callId)))
  }

  function AsResult(m: ToolRound.Message, name: Name): Message {
    Tool(name, m.text, m.callId, name, true, None, false)
  }

  ghost function Answered(calls: seq<ToolRound.Call>, outcomes: seq<Schedules.Outcome>): set<Id>
    requires |calls| == |outcomes|
  {
    set i | 0 <= i < |calls| && outcomes[i].Answer? :: calls[i].id
  }

  lemma AnsweredOneMore(calls: seq<ToolRound.Call>, outcomes: seq<Schedules.Outcome>)
    requires |calls| == |outcomes| > 0
    requires forall i, j :: 0 <= i < j < |calls| ==> calls[i].id != calls[j].id
    ensures var n := |calls| - 1;
            && calls[n].id !in Answered(calls[..n], outcomes[..n])
            && Answered(calls, outcomes) ==
               Answered(calls[..n], outcomes[..n]) + if outcomes[n].Answer? then {calls[n].id} else {}
  {
    var n := |calls| - 1;
    assert forall i :: 0 <= i < n ==> calls[..n][i] == calls[i] && outcomes[..n][i] == outcomes[i];
  }

  // However far a round got, the results it emitted answer distinct calls of that round.
  lemma {:induction false} RoundEmitsDistinctResults(
    calls: seq<ToolRound.Call>, outcomes: seq<Schedules.Outcome>, nameOf: Id -> Name)
    requires |calls| == |outcomes|
    requires forall i, j :: 0 <= i < j < |calls| ==> calls[i].id != calls[j].id
    ensures var results := AsResults(ToolRound.Emitted(calls, outcomes), nameOf);
            && AllResults(results) && DistinctIds(results)
            && ResultIds(results) == Answered(calls, outcomes)
  {
    if calls != [] {
      var n := |calls| - 1;
      RoundEmitsDistinctResults(calls[..n], outcomes[..n], nameOf);
      AnsweredOneMore(calls, outcomes);
      var early := AsResults(ToolRound.Emitted(calls[..n], outcomes[..n]), nameOf);
      var all := AsResults(ToolRound.Emitted(calls, outcomes), nameOf);
      if outcomes[n].Answer? {
        var last := AsResult(ToolRound.Message(calls[n].id, outcomes[n].text), nameOf(calls[n].id));
        assert all == early + [last];
        ResultIdsLast(early, last);
        DistinctIdsLast(early, last);
      } else {
        assert all == early;
      }
    }
  }
}
