// Every interleaving of approvals, rejections, answers, cancellations and dispatches of one
// tool call: what can and cannot execute.
module ToolRuns {
  import opened Common
  import opened Policy
  import opened ToolCall

  // A dispatch between two awaits remembers the verdict it acts on.
  datatype Phase =
    | AwaitingMiddleware(verdict: Verdict, mw: bool)
    | Executes(verdict: Verdict, mw: bool)
    | AwaitingResponse

  datatype Event =
    | UserApproves | UserRejects | UserAnswers(text: string)
    | RoundIsCut                                   // _answer_unanswered closes the call
    | FailStale                                    // rehydration fails a stale execution
    | Dispatch(who: nat, q: Request)               // some dispatcher picks the call up
    | MiddlewareAnswers(who: nat, blocked: Option<ToolResult>)
    | MiddlewareFails(who: nat)                    // either middleware raises or is cancelled
    | Crash                                        // every dispatch in flight is forgotten
    | ToolEnds(who: nat, ending: Ending)
    | ResponseAnswers(who: nat, replaced: ToolResult)

  // One execution start: the verdict it was given and how the call had been approved.
  datatype Start = Start(verdict: Verdict, auto: bool)

  // `phases` are the dispatches in flight, at most one per dispatcher.
  datatype World = World(record: Record, phases: map<nat, Phase>, starts: seq<Start>)

  function Try(w: World, t: Transition): World {
    match Move(w.record, t)
    case Some(r) => w.(record := r)
    case None => w
  }

  function Leaves(w: World, who: nat, done: ToolResult): World {
    World(Close(w.record, done).0, w.phases - {who}, w.starts)
  }

  function Begun(w: World, who: nat, verdict: Verdict, mw: bool): World {
    match Move(w.record, StartExecution)
    case Some(r) => World(r, w.phases[who := Executes(verdict, mw)], w.starts + [Start(verdict, w.record.auto)])
    case None => w.(phases := w.phases - {who})
  }

  function Enters(w: World, who: nat, q: Request): World {
    var (r, progress) := Enter(w.record, q);
    match progress
    case InMiddleware => World(r, w.phases[who := AwaitingMiddleware(q.verdict, q.hasMiddleware)], w.starts)
    case Running =>
      World(r, w.phases[who := Executes(q.verdict, q.hasMiddleware)], w.starts + [Start(q.verdict, r.auto)])
    case _ => w.(record := r)
  }

  function Next(w: World, e: Event): World {
    match e
    case UserApproves => Try(w, Approve)
    case UserRejects => Try(w, Reject)
    case UserAnswers(text) => Try(w, ApplyUserAnswer(text))
    case RoundIsCut => Try(w, ForceConsume(Failure(w.record.id, CancelledBeforeStart)))
    case FailStale => Try(w, MarkStaleAsFailed)
    case Dispatch(who, q) => if who in w.phases then w else Enters(w, who, q)
    case MiddlewareAnswers(who, blocked) =>
      if who in w.phases && w.phases[who].AwaitingMiddleware? then
        (if blocked.Some? then Leaves(w, who, blocked.value)
         else Begun(w, who, w.phases[who].verdict, w.phases[who].mw))
      else w
    case MiddlewareFails(who) =>
      if who in w.phases && !w.phases[who].Executes? then w.(phases := w.phases - {who}) else w
    case Crash => w.(phases := map[])
    case ToolEnds(who, ending) =>
      if who in w.phases && w.phases[who].Executes? then
        (if w.phases[who].mw && ending != Cancelled then w.(phases := w.phases[who := AwaitingResponse])
         else Leaves(w, who, Outcome(w.record.id, ending)))
      else w
    case ResponseAnswers(who, replaced) =>
      if who in w.phases && w.phases[who].AwaitingResponse? then Leaves(w, who, replaced) else w
  }

  function After(w: World, events: seq<Event>): World {
    if events == [] then w else Next(After(w, events[..|events| - 1]), events[|events| - 1])
  }

  function Fresh(id: Id): World {
    World(NewRecord(id), map[], [])
  }

  // ---- Safety ----------------------------------------------------------------------------

  predicate Allowed(s: Start) {
    s.verdict != Deny && (s.verdict == Allow || !s.auto)
  }

  // What every interleaving keeps.
  ghost predicate Inv(w: World, id: Id) {
    && w.record.id == id
    && |w.starts| <= 1
    && (forall s :: s in w.starts ==> Allowed(s))
    && (w.record.status == Executing ==> |w.starts| == 1)
    && (|w.starts| == 1 ==> w.record.status == Executing || w.record.status == Consumed)
    && (w.record.status == Consumed <==> w.record.result.Some?)
    && (w.record.result.Some? ==> w.record.result.value.callId == id)
    && (w.record.status == PendingApproval ==> !w.record.auto && w.record.answer == None)
    && (w.record.status == InputNeeded || w.record.status == Rejected ==> !w.record.auto)
    && (w.record.status == Approved ==> !w.record.auto)
    && (w.record.status == AutoApproved ==> w.record.auto)
    && (forall who :: who in w.phases && w.phases[who].AwaitingMiddleware? ==>
          w.phases[who].verdict != Deny && (w.phases[who].verdict == Allow || !w.record.auto))
    && (forall who :: who in w.phases && w.phases[who].AwaitingMiddleware? ==>
          w.record.status == Approved || w.record.status == AutoApproved
          || w.record.status == Executing || w.record.status == Consumed)
  }

  // A record as every history leaves it.
  ghost predicate Sane(r: Record) {
    && (r.status == Consumed <==> r.result.Some?)
    && (r.result.Some? ==> r.result.value.callId == r.id)
    && (r.status == PendingApproval ==> !r.auto && r.answer == None)
    && (r.status == InputNeeded || r.status == Rejected || r.status == Approved ==> !r.auto)
    && (r.status == AutoApproved ==> r.auto)
  }

  // What picking up `r` may make of it, and when its tool may come to run.
  ghost predicate PickedUp(r: Record, q: Request, s: Record, progress: Progress) {
    && s.id == r.id && Sane(s)
    && (r.result.Some? ==> s == r)
    && (s.status == Executing <==> progress == Running || (r.status == Executing && s == r))
    && (progress == Running || progress == InMiddleware ==>
          && (r.status == PendingApproval || r.status == Approved || r.status == AutoApproved)
          && q.verdict != Deny && (q.verdict == Allow || !s.auto)
          && (progress == InMiddleware ==> s.status == Approved || s.status == AutoApproved))
    && (s.auto != r.auto ==> r.status == PendingApproval && q.verdict == Allow)
    && (r.status == Executing ==> s == r)
    && (r.status != PendingApproval ==> s.status == r.status || s.status == Executing || s.status == Consumed)
  }

  lemma CloseKeeps(r: Record, q: Request, done: ToolResult)
    requires Sane(r) && r.status != Executing && r.status != Consumed && done.callId == r.id
    ensures PickedUp(r, q, Close(r, done).0, Close(r, done).1)
  {
  }

  lemma QuestionKeeps(r: Record, q: Request, hasQuestions: bool)
    requires Sane(r) && r.status != Executing && r.status != Consumed
    ensures PickedUp(r, q, Question(r, hasQuestions).0, Question(r, hasQuestions).1)
  {
    hide Close, PickedUp, Sane;
    CloseKeeps(r, q, Failure(r.id, InvalidParameters));
    CloseKeeps(r, q, Failure(r.id, ExecutionError));
    if r.answer.Some? { CloseKeeps(r, q, ToolResult(r.id, true, r.answer.value, None)); }
    PausedKeeps(r, q);
  }

  lemma PausedKeeps(r: Record, q: Request)
    requires Sane(r) && r.status != Executing && r.status != Consumed
    ensures PickedUp(r, q, r, Paused) && PickedUp(r, q, r, Raised)
    ensures r.status == PendingApproval ==> PickedUp(r, q, r.(status := InputNeeded), Paused)
  {
  }

  // `now` is `r`, approved automatically if it was pending.
  lemma PermittedKeeps(r: Record, now: Record, q: Request)
    requires Sane(r) && r.status != Executing && r.status != Consumed && q.verdict != Deny
    requires r.status == PendingApproval ==> q.verdict == Allow
    requires now == if r.status == PendingApproval then r.(status := AutoApproved, auto := true) else r
    ensures PickedUp(r, q, Permitted(now, q).0, Permitted(now, q).1)
  {
  }

  lemma EnterKeeps(r: Record, q: Request)
    requires Sane(r)
    ensures PickedUp(r, q, Enter(r, q).0, Enter(r, q).1)
  {
    if r.status != Executing && r.status != Consumed {
      hide Close, Question, Permitted, PickedUp, Sane;
      CloseKeeps(r, q, Failure(r.id, ApprovalDenied));
      CloseKeeps(r, q, Failure(r.id, CancelledBeforeStart));
      CloseKeeps(r, q, Failure(r.id, ExecutionError));
      CloseKeeps(r, q, Failure(r.id, InvalidParameters));
      PausedKeeps(r, q);
      if q.kind.AskUser? { QuestionKeeps(r, q, q.kind.hasQuestions); }
      if q.verdict != Deny && (r.status == PendingApproval ==> q.verdict == Allow) {
        PermittedKeeps(r, if r.status == PendingApproval then r.(status := AutoApproved, auto := true) else r, q);
      }
    }
  }

  lemma StepKeeps(w: World, e: Event, id: Id)
    requires Inv(w, id)
    ensures Inv(Next(w, e), id)
  {
    if e.Dispatch? {
      if e.who !in w.phases { EntersKeeps(w, e.who, e.q, id); }
    }
  }

  lemma EntersKeeps(w: World, who: nat, q: Request, id: Id)
    requires Inv(w, id) && who !in w.phases
    ensures Inv(Enters(w, who, q), id)
  {
    EnterKeeps(w.record, q);
    hide Enter;
  }

  lemma {:induction false} AlwaysSafe(id: Id, events: seq<Event>)
    ensures Inv(After(Fresh(id), events), id)
  {
    if events != [] {
      AlwaysSafe(id, events[..|events| - 1]);
      StepKeeps(After(Fresh(id), events[..|events| - 1]), events[|events| - 1], id);
    }
  }

  // In any interleaving a call starts executing at most once, and only under a verdict that is
  // not deny, and is allow unless the call was approved other than automatically.
  lemma ExecutesAtMostOnceAndOnlyIfAllowed(id: Id, events: seq<Event>)
    ensures var w := After(Fresh(id), events);
            |w.starts| <= 1 && forall s :: s in w.starts ==> Allowed(s)
  {
    AlwaysSafe(id, events);
  }

  // Once rejected, a call never executes, whatever happens afterwards.
  lemma {:induction false} RejectedNeverExecutes(id: Id, before: seq<Event>, after: seq<Event>)
    requires After(Fresh(id), before).record.status == Rejected
    ensures After(After(Fresh(id), before), after).starts == []
    ensures var r := After(After(Fresh(id), before), after).record;
            r.status == Rejected || r.status == Consumed
    decreases |after|
  {
    AlwaysSafe(id, before);
    if after != [] {
      var n := |after| - 1;
      RejectedNeverExecutes(id, before, after[..n]);
      AfterConcat(Fresh(id), before, after[..n]);
      AlwaysSafe(id, before + after[..n]);
      ClosedStaysClosed(After(After(Fresh(id), before), after[..n]), after[n], id);
    }
  }

  lemma ClosedStaysClosed(w: World, e: Event, id: Id)
    requires Inv(w, id) && w.starts == []
    requires w.record.status == Rejected || w.record.status == Consumed
    ensures var next := Next(w, e);
            next.starts == [] && (next.record.status == Rejected || next.record.status == Consumed)
  {
    if e.Dispatch? && e.who !in w.phases { EnterKeeps(w.record, e.q); }
  }

  lemma {:induction false} AfterConcat(w: World, a: seq<Event>, b: seq<Event>)
    ensures After(w, a + b) == After(After(w, a), b)
  {
    if b == [] {
      assert a + b == a;
    } else {
      assert (a + b)[..|a + b| - 1] == a + b[..|b| - 1];
      AfterConcat(w, a, b[..|b| - 1]);
    }
  }

  // The result is set once: it answers this very call and no later event changes it.
  lemma {:induction false} ResultIsFinal(id: Id, before: seq<Event>, after: seq<Event>)
    requires After(Fresh(id), before).record.result.Some?
    ensures After(After(Fresh(id), before), after).record == After(Fresh(id), before).record
    ensures After(Fresh(id), before).record.result.value.callId == id
    ensures After(Fresh(id), before).record.status == Consumed
    decreases |after|
  {
    AlwaysSafe(id, before);
    if after != [] {
      var n := |after| - 1;
      ResultIsFinal(id, before, after[..n]);
      var w, e := After(After(Fresh(id), before), after[..n]), after[n];
      if e.Dispatch? && e.who !in w.phases { EnterKeeps(w.record, e.q); }
    }
  }

  // When an executing call outlives its dispatch: only after a crash, or when the tool_response
  // middleware raises or answers for another call. Such a call waits for FailStale, and nothing
  // answers it before that.
  lemma LeftExecutingIff(w: World, e: Event, id: Id, who: nat)
    requires Inv(w, id) && w.record.status == Executing
    requires who in w.phases && !w.phases[who].AwaitingMiddleware? && who !in Next(w, e).phases
    ensures Next(w, e).record.status == Executing
            <==> e == Crash || e == MiddlewareFails(who) || (e.ResponseAnswers? && e.replaced.callId != id)
  {
  }

  // ---- What a dispatch returns -----------------------------------------------------------

  function Given(p: Progress): Option<ToolResult> {
    if p.Done? then Some(p.done) else None
  }

  // The result the step's dispatch returns to its round; a cancelled tool is closed but raises.
  function GivenBack(w: World, e: Event): Option<ToolResult> {
    match e
    case Dispatch(who, q) => if who in w.phases then None else Given(Enter(w.record, q).1)
    case MiddlewareAnswers(who, blocked) =>
      if who in w.phases && w.phases[who].AwaitingMiddleware? && blocked.Some?
      then Given(Close(w.record, blocked.value).1) else None
    case ToolEnds(who, ending) =>
      if who in w.phases && w.phases[who].Executes? && !w.phases[who].mw && ending != Cancelled
      then Given(Close(w.record, Outcome(w.record.id, ending)).1) else None
    case ResponseAnswers(who, replaced) =>
      if who in w.phases && w.phases[who].AwaitingResponse? then Given(Close(w.record, replaced).1) else None
    case _ => None
  }

  // Whatever a dispatch returns is by then the record's own result.
  lemma ReturnedIsRecorded(w: World, e: Event, id: Id)
    requires Inv(w, id) && GivenBack(w, e).Some?
    ensures Next(w, e).record.status == Consumed && Next(w, e).record.result == GivenBack(w, e)
  {
  }

  // Everything that happened to one call, from its creation on.
  datatype History = History(id: Id, events: seq<Event>)

  function RecordOf(h: History): Record {
    After(Fresh(h.id), h.events).record
  }

  ghost predicate ReturnedAt(h: History, k: int, done: ToolResult) {
    0 <= k < |h.events| && GivenBack(After(Fresh(h.id), h.events[..k]), h.events[k]) == Some(done)
  }

  // Some dispatch of the call returned this result.
  ghost predicate HasReturned(h: History, done: ToolResult) {
    exists k :: ReturnedAt(h, k, done)
  }

  // A returned result stays the record's result, however the call's history goes on; so no two
  // dispatches of a call ever return different results.
  lemma ReturnedStays(h: History, done: ToolResult)
    requires HasReturned(h, done)
    ensures RecordOf(h).status == Consumed && RecordOf(h).result == Some(done) && done.callId == h.id
  {
    hide Next, GivenBack, Inv, Fresh;
    var k :| ReturnedAt(h, k, done);
    var before, after := h.events[..k + 1], h.events[k + 1..];
    assert h.events == before + after && before[..k] == h.events[..k];
    AlwaysSafe(h.id, h.events[..k]);
    ReturnedIsRecorded(After(Fresh(h.id), h.events[..k]), h.events[k], h.id);
    ResultIsFinal(h.id, before, after);
    AfterConcat(Fresh(h.id), before, after);
  }
}
