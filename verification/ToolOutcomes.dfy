// What becomes of a call and why: when a dispatch starts the tool, asks, refuses or pauses, what
// result the call ends with, and what the user's decisions do (ToolDispatcher._dispatch in
// max_ai/core/tool/dispatcher.py, the transitions of max_ai/types/tool_call.py).
module ToolOutcomes {
  import opened Common
  import opened Policy
  import opened ToolCall
  import opened ToolRuns

  // ---- One dispatch ----------------------------------------------------------------------

  // Nobody stands in the way of an ordinary tool: the call is read in full, not cancelled, and a
  // command has a manager to run in.
  predicate Runnable(q: Request) {
    q.kind.Ordinary? && q.valid && !q.cancelled && q.verdict != Deny && (q.kind.runsCommands ==> q.hasManager)
  }

  // The user approved the call; or policy allows it now and nobody has decided otherwise.
  predicate Cleared(r: Record, q: Request) {
    || r.status == Approved
    || ((r.status == PendingApproval || r.status == AutoApproved) && q.verdict == Allow)
  }

  // A dispatch starts the tool, or hands it to its middleware, if and only if the call is
  // runnable and cleared.
  lemma StartsIff(r: Record, q: Request)
    requires Sane(r)
    ensures Enter(r, q).1 == Running <==> Runnable(q) && Cleared(r, q) && !q.hasMiddleware
    ensures Enter(r, q).1 == InMiddleware <==> Runnable(q) && Cleared(r, q) && q.hasMiddleware
    ensures Enter(r, q).1 == Running ==> Enter(r, q).0.status == Executing
    ensures Runnable(q) && Cleared(r, q) ==> Enter(r, q).0.auto == (r.status != Approved)
  {
  }

  // A dispatch waits for the user if and only if policy asks about a call nobody has decided
  // on, or the call is a question that has none but its answer missing.
  lemma PausesIff(r: Record, q: Request)
    requires Sane(r)
    ensures Enter(r, q).1 == Paused <==>
            && q.valid && !q.cancelled
            && ((q.kind.Ordinary? && r.status == PendingApproval && q.verdict == Ask)
                || (q.kind.AskUser? && r.answer == None
                    && ((r.status == PendingApproval && q.kind.hasQuestions) || r.status == InputNeeded)))
    ensures Enter(r, q).1 == Paused && q.kind.Ordinary? ==> Enter(r, q).0 == r
    ensures Enter(r, q).1 == Paused && q.kind.AskUser? ==> Enter(r, q).0 == r.(status := InputNeeded)
  {
  }

  // A dispatch raises, and leaves the record as it was, if and only if the call is executing
  // already or is an ordinary one that waits for an answer.
  lemma RaisesIff(r: Record, q: Request)
    requires Sane(r)
    ensures Enter(r, q).1 == Raised <==>
            r.status == Executing || (r.status == InputNeeded && q.kind.Ordinary? && q.valid && !q.cancelled)
    ensures Enter(r, q).1 == Raised ==> Enter(r, q).0 == r
  {
  }

  // Why a call is refused, or None when it is not: the first reason that applies.
  function Refusal(r: Record, q: Request): Option<Reason> {
    if r.status == Rejected then Some(ApprovalDenied)
    else if q.cancelled then Some(CancelledBeforeStart)
    else if q.kind == UnknownTool then Some(ExecutionError)
    else if !q.valid then Some(InvalidParameters)
    else if q.kind.AskUser? then
      (if r.answer.Some? || r.status == InputNeeded then None
       else if r.status != PendingApproval then Some(ExecutionError)
       else if q.kind.hasQuestions then None else Some(InvalidParameters))
    else if r.status == InputNeeded then None
    else if q.verdict == Deny then Some(ApprovalDenied)
    else if q.verdict == Ask && r.status == AutoApproved then Some(ExecutionError)
    else if q.kind.runsCommands && !q.hasManager && Cleared(r, q) then Some(ExecutionError)
    else None
  }

  // A dispatch closes an open call without running it exactly when there is such a reason, and
  // gives it; or when the call is a question that has been answered, with that answer.
  lemma RefusesIff(r: Record, q: Request)
    requires Sane(r) && r.status != Executing && r.status != Consumed
    ensures var (s, progress) := Enter(r, q);
            && (Refusal(r, q).Some? ==>
                  progress.Done? && FailsWith(progress.done, r.id, Refusal(r, q).value))
            && (Answers(r, q) ==> progress == Done(ToolResult(r.id, true, r.answer.value, None)))
            && (progress.Done? <==> Refusal(r, q).Some? || Answers(r, q))
            && (progress.Done? ==> s.status == Consumed && s.result == Some(progress.done))
  {
  }

  // A question whose stored answer is about to be returned.
  predicate Answers(r: Record, q: Request) {
    q.kind.AskUser? && r.answer.Some? && r.status != Rejected && !q.cancelled && q.valid
  }

  // A consumed call is not run again: its result is given once more.
  lemma ConsumedIsRepeated(r: Record, q: Request)
    requires Sane(r) && r.status == Consumed
    ensures Enter(r, q) == (r, Done(r.result.value))
  {
  }

  // ---- Whole runs ------------------------------------------------------------------------

  lemma AfterOneMore(w: World, events: seq<Event>, e: Event)
    ensures After(w, events + [e]) == Next(After(w, events), e)
  {
    assert (events + [e])[..|events|] == events;
  }

  // Once closed with a result, a call keeps it through every further history.
  lemma StaysClosed(id: Id, before: seq<Event>, e: Event, after: seq<Event>)
    requires Next(After(Fresh(id), before), e).record.result.Some?
    ensures After(Fresh(id), before + [e] + after).record == Next(After(Fresh(id), before), e).record
    ensures After(Fresh(id), before + [e] + after).record.status == Consumed
  {
    hide Next, Fresh;
    AfterOneMore(Fresh(id), before, e);
    ResultIsFinal(id, before + [e], after);
    AfterConcat(Fresh(id), before + [e], after);
  }

  // A call that is closed by its own tool holds exactly what the tool ended with, for good.
  lemma ToolsAnswerIsKept(id: Id, before: seq<Event>, who: nat, ending: Ending, after: seq<Event>)
    requires var w := After(Fresh(id), before);
             && w.record.status == Executing && who in w.phases && w.phases[who].Executes?
             && (!w.phases[who].mw || ending == Cancelled)
    ensures var r := After(Fresh(id), before + [ToolEnds(who, ending)] + after).record;
            r.status == Consumed && r.result.Some? && Tells(id, ending, r.result.value)
  {
    AlwaysSafe(id, before);
    StaysClosed(id, before, ToolEnds(who, ending), after);
  }

  // With a tool_response middleware, it holds what that made of the result.
  lemma MiddlewaresAnswerIsKept(id: Id, before: seq<Event>, who: nat, done: ToolResult, after: seq<Event>)
    requires var w := After(Fresh(id), before);
             && w.record.status == Executing && who in w.phases && w.phases[who].AwaitingResponse?
             && done.callId == id
    ensures After(Fresh(id), before + [ResponseAnswers(who, done)] + after).record.result == Some(done)
  {
    AlwaysSafe(id, before);
    StaysClosed(id, before, ResponseAnswers(who, done), after);
  }

  // A call that its tool_request middleware answers ends with that answer and never runs.
  lemma BlockedCallKeepsAnswer(id: Id, before: seq<Event>, who: nat, done: ToolResult, after: seq<Event>)
    requires var w := After(Fresh(id), before);
             && (w.record.status == Approved || w.record.status == AutoApproved)
             && who in w.phases && w.phases[who].AwaitingMiddleware? && done.callId == id
    ensures var w := After(Fresh(id), before + [MiddlewareAnswers(who, Some(done))] + after);
            w.record.result == Some(done) && w.starts == []
  {
    AlwaysSafe(id, before);
    var e := MiddlewareAnswers(who, Some(done));
    StaysClosed(id, before, e, after);
    AfterOneMore(Fresh(id), before, e);
    NeverStartsOnceClosed(id, before + [e], after);
  }

  lemma {:induction false} NeverStartsOnceClosed(id: Id, before: seq<Event>, after: seq<Event>)
    requires After(Fresh(id), before).record.status == Consumed && After(Fresh(id), before).starts == []
    ensures After(Fresh(id), before + after).starts == []
    ensures After(Fresh(id), before + after).record.status == Consumed
    decreases |after|
  {
    if after == [] {
      assert before + after == before;
    } else {
      var early, last := after[..|after| - 1], after[|after| - 1];
      NeverStartsOnceClosed(id, before, early);
      assert before + after == before + early + [last];
      AfterOneMore(Fresh(id), before + early, last);
      AlwaysSafe(id, before + early);
      hide Inv, Next;
      ClosedIsFinal(After(Fresh(id), before + early), last, id);
    }
  }

  lemma ClosedIsFinal(w: World, e: Event, id: Id)
    requires Inv(w, id) && w.starts == [] && w.record.status == Consumed
    ensures Next(w, e).starts == [] && Next(w, e).record.status == Consumed
  {
    if e.Dispatch? && e.who !in w.phases { EnterKeeps(w.record, e.q); }
  }

  // Once the user approves a call that waits, the next dispatch of a runnable call starts it,
  // although policy still asks; and it counts as approved by the user.
  lemma ApprovalLetsCallRun(id: Id, before: seq<Event>, who: nat, q: Request)
    requires var w := After(Fresh(id), before); w.record.status == PendingApproval && who !in w.phases
    requires Runnable(q) && !q.hasMiddleware
    ensures var w := After(Fresh(id), before + [UserApproves] + [Dispatch(who, q)]);
            && w.record.status == Executing && w.starts == [Start(q.verdict, false)]
            && who in w.phases && w.phases[who].Executes?
  {
    AlwaysSafe(id, before);
    hide Next, Inv, Runnable, Fresh;
    AfterOneMore(Fresh(id), before, UserApproves);
    AfterOneMore(Fresh(id), before + [UserApproves], Dispatch(who, q));
    ApprovedStarts(After(Fresh(id), before), id, who, q);
  }

  lemma ApprovedStarts(w: World, id: Id, who: nat, q: Request)
    requires Inv(w, id) && w.record.status == PendingApproval && who !in w.phases
    requires Runnable(q) && !q.hasMiddleware
    ensures var v := Next(Next(w, UserApproves), Dispatch(who, q));
            && v.record.status == Executing && v.starts == [Start(q.verdict, false)]
            && who in v.phases && v.phases[who].Executes?
  {
    StartsIff(Next(w, UserApproves).record, q);
    assert w.starts == [];
  }

  // The user's decisions take effect exactly on a call that waits for them, and change nothing
  // else about it.
  lemma DecisionsTakeEffectIff(w: World, text: string)
    ensures Next(w, UserApproves).record ==
            if w.record.status == PendingApproval then w.record.(status := Approved) else w.record
    ensures Next(w, UserRejects).record ==
            if w.record.status == PendingApproval then w.record.(status := Rejected) else w.record
    ensures Next(w, UserAnswers(text)).record ==
            if w.record.status == InputNeeded then w.record.(status := Approved, answer := Some(text)) else w.record
  {
  }

  // Once the user rejects it, the next dispatch closes it as denied, and it keeps that result.
  lemma RejectionDeniesCall(id: Id, before: seq<Event>, who: nat, q: Request, after: seq<Event>)
    requires var w := After(Fresh(id), before); w.record.status == PendingApproval && who !in w.phases
    ensures var r := After(Fresh(id), before + [UserRejects] + [Dispatch(who, q)] + after).record;
            r.result.Some? && FailsWith(r.result.value, id, ApprovalDenied)
  {
    AlwaysSafe(id, before);
    hide Next, Inv, Fresh;
    AfterOneMore(Fresh(id), before, UserRejects);
    RejectedIsDenied(After(Fresh(id), before), id, who, q);
    StaysClosed(id, before + [UserRejects], Dispatch(who, q), after);
  }

  lemma RejectedIsDenied(w: World, id: Id, who: nat, q: Request)
    requires Inv(w, id) && w.record.status == PendingApproval && who !in w.phases
    ensures var r := Next(Next(w, UserRejects), Dispatch(who, q)).record;
            r.result.Some? && FailsWith(r.result.value, id, ApprovalDenied)
  {
    RefusesIff(Next(w, UserRejects).record, q);
  }

  // Once the user answers a pending question, the next dispatch returns that answer, for good.
  lemma AnswerIsReturned(id: Id, before: seq<Event>, text: string, who: nat, q: Request, after: seq<Event>)
    requires var w := After(Fresh(id), before); w.record.status == InputNeeded && who !in w.phases
    requires q.kind.AskUser? && q.valid && !q.cancelled
    ensures After(Fresh(id), before + [UserAnswers(text)] + [Dispatch(who, q)] + after).record.result ==
            Some(ToolResult(id, true, text, None))
  {
    AlwaysSafe(id, before);
    hide Next, Inv, Fresh;
    AfterOneMore(Fresh(id), before, UserAnswers(text));
    AnsweredIsReturned(After(Fresh(id), before), id, text, who, q);
    StaysClosed(id, before + [UserAnswers(text)], Dispatch(who, q), after);
  }

  lemma AnsweredIsReturned(w: World, id: Id, text: string, who: nat, q: Request)
    requires Inv(w, id) && w.record.status == InputNeeded && who !in w.phases
    requires q.kind.AskUser? && q.valid && !q.cancelled
    ensures Next(Next(w, UserAnswers(text)), Dispatch(who, q)).record.result == Some(ToolResult(id, true, text, None))
  {
    RefusesIff(Next(w, UserAnswers(text)).record, q);
  }

  // A call that is only ever dispatched as a question never runs anything.
  lemma {:induction false} QuestionsNeverRun(id: Id, events: seq<Event>)
    requires forall e :: e in events && e.Dispatch? ==> e.q.kind.AskUser?
    ensures After(Fresh(id), events).starts == [] && After(Fresh(id), events).phases == map[]
  {
    if events != [] {
      var early, last := events[..|events| - 1], events[|events| - 1];
      assert last in events;
      QuestionsNeverRun(id, early);
      AlwaysSafe(id, early);
      hide Inv;
      if last.Dispatch? { StartsIffSane(After(Fresh(id), early), last.q, id); }
    }
  }

  lemma StartsIffSane(w: World, q: Request, id: Id)
    requires Inv(w, id)
    ensures Enter(w.record, q).1 == Running || Enter(w.record, q).1 == InMiddleware ==> q.kind.Ordinary?
  {
    StartsIff(w.record, q);
  }

  // A cut closes an open call as cancelled before its start; rehydration closes a call left
  // executing as failed.
  lemma CutAndStaleReasons(id: Id, before: seq<Event>, after: seq<Event>)
    ensures var r := After(Fresh(id), before).record;
            r.status != Executing && r.status != Consumed ==>
              var cut := After(Fresh(id), before + [RoundIsCut] + after).record.result;
              cut.Some? && FailsWith(cut.value, id, CancelledBeforeStart)
    ensures After(Fresh(id), before).record.status == Executing ==>
              var failed := After(Fresh(id), before + [FailStale] + after).record.result;
              failed.Some? && FailsWith(failed.value, id, ExecutionError)
  {
    AlwaysSafe(id, before);
    var r := After(Fresh(id), before).record;
    if r.status == Executing { StaysClosed(id, before, FailStale, after); }
    else if r.status != Consumed { StaysClosed(id, before, RoundIsCut, after); }
  }
}
