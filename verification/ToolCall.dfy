// The life of one tool call: the record's transitions (max_ai/types/tool_call.py) and the
// dispatcher's path through them (max_ai/core/tool/dispatcher.py).
module ToolCall {
  import opened Common
  import opened Policy

  datatype Status = PendingApproval | Approved | AutoApproved | Rejected | InputNeeded | Executing | Consumed

  datatype Reason = CancelledBeforeStart | CancelledDuringExecution | InvalidParameters | ExecutionError
                  | ApprovalDenied | Timeout

  datatype ToolResult = ToolResult(callId: Id, success: bool, payload: string, reason: Option<Reason>)

  function Failure(id: Id, reason: Reason): ToolResult {
    ToolResult(id, false, "", Some(reason))
  }

  // `auto` is was_auto_approved; `answer` the user's stored answer to an ask_user call.
  datatype Record = Record(id: Id, status: Status, auto: bool, answer: Option<string>, result: Option<ToolResult>)

  function NewRecord(id: Id): Record {
    Record(id, PendingApproval, false, None, None)
  }

  datatype Transition =
    | Approve | AutoApprove | Reject | AwaitUserInput | ApplyUserAnswer(text: string) | StartExecution
    | MarkConsumed(done: ToolResult) | MarkStaleAsFailed | ForceConsume(done: ToolResult)

  // The record after a transition; None when it raises, which leaves the record as it was.
  function Move(r: Record, t: Transition): Option<Record> {
    match t
    case Approve => if r.status == PendingApproval then Some(r.(status := Approved)) else None
    case AutoApprove => if r.status == PendingApproval then Some(r.(status := AutoApproved, auto := true)) else None
    case Reject => if r.status == PendingApproval then Some(r.(status := Rejected)) else None
    case AwaitUserInput => if r.status == PendingApproval then Some(r.(status := InputNeeded)) else None
    case ApplyUserAnswer(text) =>
      if r.status == InputNeeded then Some(r.(status := Approved, answer := Some(text))) else None
    case StartExecution =>
      if r.status == Approved || r.status == AutoApproved then Some(r.(status := Executing)) else None
    case MarkConsumed(done) =>
      if r.status == Executing && done.callId == r.id then Some(r.(status := Consumed, result := Some(done))) else None
    case MarkStaleAsFailed =>
      if r.status == Executing
      then Some(r.(status := Consumed, result := Some(Failure(r.id, ExecutionError)))) else None
    case ForceConsume(done) =>
      if r.status != Consumed && r.status != Executing && done.callId == r.id
      then Some(r.(status := Consumed, result := Some(done))) else None
  }

  class ToolCallRecord {
    const id: Id
    const toolName: Name
    var status: Status
    var wasAutoApproved: bool
    var userAnswer: Option<string>
    var result: Option<ToolResult>

    constructor (id: Id, toolName: Name)
      ensures this.id == id && this.toolName == toolName && Now() == NewRecord(id)
    {
      this.id, this.toolName := id, toolName;
      status, wasAutoApproved, userAnswer, result := PendingApproval, false, None, None;
    }

    function Now(): Record
      reads this
    {
      Record(id, status, wasAutoApproved, userAnswer, result)
    }

    // Each method below reports whether it was allowed; a refused one changes nothing.
    twostate predicate Moved(t: Transition, ok: bool)
      reads this
    {
      && (ok <==> Move(old(Now()), t).Some?)
      && Now() == if ok then Move(old(Now()), t).value else old(Now())
    }

    method DoApprove() returns (ok: bool)
      modifies this
      ensures Moved(Approve, ok)
    {
      ok := status == PendingApproval;
      if ok { status := Approved; }
    }

    method DoAutoApprove() returns (ok: bool)
      modifies this
      ensures Moved(AutoApprove, ok)
    {
      ok := status == PendingApproval;
      if ok { status, wasAutoApproved := AutoApproved, true; }
    }

    method DoReject() returns (ok: bool)
      modifies this
      ensures Moved(Reject, ok)
    {
      ok := status == PendingApproval;
      if ok { status := Rejected; }
    }

    method DoAwaitUserInput() returns (ok: bool)
      modifies this
      ensures Moved(AwaitUserInput, ok)
    {
      ok := status == PendingApproval;
      if ok { status := InputNeeded; }
    }

    method DoApplyUserAnswer(text: string) returns (ok: bool)
      modifies this
      ensures Moved(ApplyUserAnswer(text), ok)
    {
      ok := status == InputNeeded;
      if ok { status, userAnswer := Approved, Some(text); }
    }

    method DoStartExecution() returns (ok: bool)
      modifies this
      ensures Moved(StartExecution, ok)
    {
      ok := status == Approved || status == AutoApproved;
      if ok { status := Executing; }
    }

    method DoMarkConsumed(done: ToolResult) returns (ok: bool)
      modifies this
      ensures Moved(MarkConsumed(done), ok)
    {
      ok := status == Executing && done.callId == id;
      if ok { status, result := Consumed, Some(done); }
    }

    method DoMarkStaleAsFailed() returns (ok: bool)
      modifies this
      ensures Moved(MarkStaleAsFailed, ok)
    {
      ok := status == Executing;
      if ok { status, result := Consumed, Some(Failure(id, ExecutionError)); }
    }

    method DoForceConsume(done: ToolResult) returns (ok: bool)
      modifies this
      ensures Moved(ForceConsume(done), ok)
    {
      ok := status != Consumed && status != Executing && done.callId == id;
      if ok { status, result := Consumed, Some(done); }
    }

    // The dispatcher's `finish`: whichever of the two consuming transitions fits.
    method Finish(done: ToolResult) returns (ok: bool)
      modifies this
      ensures ok <==> Finished(old(Now()), done).Some?
      ensures Now() == if ok then Finished(old(Now()), done).value else old(Now())
    {
      if status == Executing { ok := DoMarkConsumed(done); } else { ok := DoForceConsume(done); }
    }
  }

  function Finished(r: Record, done: ToolResult): Option<Record> {
    if r.status == Executing then Move(r, MarkConsumed(done)) else Move(r, ForceConsume(done))
  }

  // ---- One dispatch, cut at its await points ---------------------------------------------

  datatype Kind = UnknownTool | AskUser(hasQuestions: bool) | Ordinary(runsCommands: bool)

  // Everything a dispatch learns from outside: the token, the registry and schema, the policy.
  datatype Request = Request(
    cancelled: bool, kind: Kind, valid: bool, verdict: Verdict, hasManager: bool, hasMiddleware: bool)

  // Where a dispatch stands when it gives up control.
  datatype Progress =
    | Done(done: ToolResult)   // returned a result
    | Paused                   // returned None: approval or an answer is pending
    | Raised                   // raised ValueError
    | InMiddleware             // awaits tool_request
    | Running                  // the tool has started

  // From entry to the first await.
  function Enter(r: Record, q: Request): (Record, Progress) {
    if r.status == Executing then (r, Raised)
    else if r.status == Consumed then (if r.result.Some? then (r, Done(r.result.value)) else (r, Paused))
    else if r.status == Rejected then Close(r, Failure(r.id, ApprovalDenied))
    else if q.cancelled then Close(r, Failure(r.id, CancelledBeforeStart))
    else if q.kind == UnknownTool then Close(r, Failure(r.id, ExecutionError))
    else if !q.valid then Close(r, Failure(r.id, InvalidParameters))
    else if q.kind.AskUser? then Question(r, q.kind.hasQuestions)
    else if r.status == InputNeeded then (r, Raised)
    else if q.verdict == Deny then Close(r, Failure(r.id, ApprovalDenied))
    else if r.status == PendingApproval && q.verdict == Ask then (r, Paused)
    else Permitted(if r.status == PendingApproval then r.(status := AutoApproved, auto := true) else r, q)
  }

  function Close(r: Record, done: ToolResult): (Record, Progress) {
    match Finished(r, done)
    case Some(closed) => (closed, Done(done))
    case None => (r, Raised)
  }

  // ask_user never runs: it becomes the pending question, or returns the stored answer.
  function Question(r: Record, hasQuestions: bool): (Record, Progress) {
    if r.answer.Some? then Close(r, ToolResult(r.id, true, r.answer.value, None))
    else if r.status == PendingApproval then
      (if hasQuestions then (r.(status := InputNeeded), Paused) else Close(r, Failure(r.id, InvalidParameters)))
    else if r.status == InputNeeded then (r, Paused)
    else Close(r, Failure(r.id, ExecutionError))
  }

  function Permitted(r: Record, q: Request): (Record, Progress) {
    if r.status != Approved && r.status != AutoApproved then (r, Raised)
    else if q.verdict == Ask && r.auto then Close(r, Failure(r.id, ExecutionError))
    else if q.kind.Ordinary? && q.kind.runsCommands && !q.hasManager then Close(r, Failure(r.id, ExecutionError))
    else if q.hasMiddleware then (r, InMiddleware)
    else Start(r)
  }

  function Start(r: Record): (Record, Progress) {
    match Move(r, StartExecution)
    case Some(started) => (started, Running)
    case None => (r, Raised)
  }

  // How a started tool ends: with its result (possibly one for another call), a timeout, an
  // error, or cancelled.
  datatype Ending = Returned(r: ToolResult) | TimedOut | Failed | Cancelled

  // What a dispatch makes of that; a result for another call is replaced by an error.
  function Outcome(id: Id, ending: Ending): ToolResult {
    match ending
    case Returned(r) => if r.callId == id then r else Failure(id, ExecutionError)
    case TimedOut => Failure(id, Timeout)
    case Failed => Failure(id, ExecutionError)
    case Cancelled => Failure(id, CancelledDuringExecution)
  }

  // An unsuccessful result for this call, with this reason.
  predicate FailsWith(done: ToolResult, id: Id, reason: Reason) {
    done.callId == id && !done.success && done.reason == Some(reason)
  }

  // The result a call gets from the way its tool ended: the tool's own, if it is for this call.
  predicate Tells(id: Id, ending: Ending, done: ToolResult) {
    match ending
    case Returned(r) => if r.callId == id then done == r else FailsWith(done, id, ExecutionError)
    case TimedOut => FailsWith(done, id, Timeout)
    case Failed => FailsWith(done, id, ExecutionError)
    case Cancelled => FailsWith(done, id, CancelledDuringExecution)
  }

  class ToolDispatcher {
    // Ids of the calls this dispatcher is working on.
    var active: set<Id>

    constructor ()
      ensures active == {}
    {
      active := {};
    }

    method Dispatch(record: ToolCallRecord, q: Request) returns (progress: Progress)
      modifies this, record
      ensures old(record.id in active) ==>
                progress == Raised && record.Now() == old(record.Now()) && active == old(active)
      ensures !old(record.id in active) ==> (record.Now(), progress) == Enter(old(record.Now()), q)
      ensures !old(record.id in active) ==>
                active == old(active) + if progress.InMiddleware? || progress.Running? then {record.id} else {}
    {
      if record.id in active || record.status == Executing { return Raised; }
      if record.status == Consumed {
        if record.result.Some? { return Done(record.result.value); }
        return Paused;
      }
      active := active + {record.id};
      progress := Decide(record, q);
      if !progress.InMiddleware? && !progress.Running? { active := active - {record.id}; }
    }

    // The tool_request middleware answered: in the tool's place, or by letting it run.
    method MiddlewareAnswered(record: ToolCallRecord, blocked: Option<ToolResult>) returns (progress: Progress)
      requires record.id in active
      modifies this, record
      ensures (record.Now(), progress) ==
              if blocked.Some? then Close(old(record.Now()), blocked.value) else Start(old(record.Now()))
      ensures active == old(active) - if progress.Running? then {} else {record.id}
    {
      if blocked.Some? {
        progress := FinishWith(record, blocked.value);
      } else {
        var ok := record.DoStartExecution();
        progress := if ok then Running else Raised;
      }
      if !progress.Running? { active := active - {record.id}; }
    }

    // The tool ended. Unless it was cancelled, a tool_response middleware sees the result first;
    // `response` is what it makes of it, None when it raises.
    method ToolEnded(record: ToolCallRecord, ending: Ending, hasMiddleware: bool, response: Option<ToolResult>)
      returns (progress: Progress)
      requires record.id in active
      modifies this, record
      ensures active == old(active) - {record.id}
      ensures hasMiddleware && ending != Cancelled && response == None ==>
                progress == Raised && record.Now() == old(record.Now())
      ensures !(hasMiddleware && ending != Cancelled && response == None) ==>
                (record.Now(), progress) ==
                Close(old(record.Now()), if hasMiddleware && ending != Cancelled then response.value
                                         else Outcome(record.id, ending))
      ensures old(record.status) == Executing && (!hasMiddleware || ending == Cancelled) ==>
                && progress.Done? && Tells(record.id, ending, progress.done)
                && record.status == Consumed && record.result == Some(progress.done)
      ensures old(record.status) == Executing && hasMiddleware && ending != Cancelled
              && response.Some? && response.value.callId == record.id ==>
                progress == Done(response.value) && record.status == Consumed && record.result == response
    {
      active := active - {record.id};
      var done := match ending
        case Returned(r) => if r.callId == record.id then r else Failure(record.id, ExecutionError)
        case TimedOut => Failure(record.id, Timeout)
        case Failed => Failure(record.id, ExecutionError)
        case Cancelled => Failure(record.id, CancelledDuringExecution);
      if ending != Cancelled && hasMiddleware {
        if response == None { return Raised; }
        done := response.value;
      }
      progress := FinishWith(record, done);
    }

    method FinishWith(record: ToolCallRecord, done: ToolResult) returns (progress: Progress)
      modifies record
      ensures (record.Now(), progress) == Close(old(record.Now()), done)
    {
      var ok := record.Finish(done);
      progress := if ok then Done(done) else Raised;
    }

    method Decide(record: ToolCallRecord, q: Request) returns (progress: Progress)
      requires record.status != Executing && record.status != Consumed
      modifies record
      ensures (record.Now(), progress) == Enter(old(record.Now()), q)
    {
      if record.status == Rejected {
        progress := FinishWith(record, Failure(record.id, ApprovalDenied));
      } else if q.cancelled {
        progress := FinishWith(record, Failure(record.id, CancelledBeforeStart));
      } else if q.kind == UnknownTool {
        progress := FinishWith(record, Failure(record.id, ExecutionError));
      } else if !q.valid {
        progress := FinishWith(record, Failure(record.id, InvalidParameters));
      } else if q.kind.AskUser? {
        progress := AskUserQuestion(record, q.kind.hasQuestions);
      } else if record.status == InputNeeded {
        progress := Raised;
      } else if q.verdict == Deny {
        progress := FinishWith(record, Failure(record.id, ApprovalDenied));
      } else {
        if record.status == PendingApproval {
          if q.verdict == Ask { return Paused; }
          var _ := record.DoAutoApprove();
        }
        progress := RunPermitted(record, q);
      }
    }

    method AskUserQuestion(record: ToolCallRecord, hasQuestions: bool) returns (progress: Progress)
      modifies record
      ensures (record.Now(), progress) == Question(old(record.Now()), hasQuestions)
    {
      if record.userAnswer.Some? {
        progress := FinishWith(record, ToolResult(record.id, true, record.userAnswer.value, None));
        return;
      }
      if record.status == PendingApproval {
        if !hasQuestions {
          progress := FinishWith(record, Failure(record.id, InvalidParameters));
          return;
        }
        var _ := record.DoAwaitUserInput();
      }
      if record.status != InputNeeded {
        progress := FinishWith(record, Failure(record.id, ExecutionError));
        return;
      }
      progress := Paused;
    }

    method RunPermitted(record: ToolCallRecord, q: Request) returns (progress: Progress)
      modifies record
      ensures (record.Now(), progress) == Permitted(old(record.Now()), q)
    {
      if record.status != Approved && record.status != AutoApproved {
        progress := Raised;
      } else if q.verdict == Ask && record.wasAutoApproved {
        progress := FinishWith(record, Failure(record.id, ExecutionError));
      } else if q.kind.Ordinary? && q.kind.runsCommands && !q.hasManager {
        progress := FinishWith(record, Failure(record.id, ExecutionError));
      } else if q.hasMiddleware {
        progress := InMiddleware;
      } else {
        var ok := record.DoStartExecution();
        progress := if ok then Running else Raised;
      }
    }
  }
}
