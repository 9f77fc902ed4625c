// All the user's tasks at once, against one store: how far the quota can be overshot.
module BudgetRuns {
  import opened Common
  import opened Budget

  // Where a task stands between two awaits.
  datatype Phase =
    | Resting                                   // not started, paused or ended
    | Reading(newTask: bool)                    // on_run_start awaits the store's usage
    | Read(newTask: bool, used: Usage)          // ... and has it
    | Joining                                   // a new task about to charge tasks=1
    | Told(total: Usage)                        // an add answered, its total not yet written down
    | Running
    | Calling                                   // a model call is in flight
    | Owing(tokens: nat, cost: Cost)            // its charge is about to be added

  datatype Task = Task(phase: Phase, state: State)

  // `late` counts, per task, the model-call charges added when the quota was already reached.
  datatype World = World(total: Usage, tasks: map<nat, Task>, late: map<nat, nat>)

  datatype Event =
    | Starts(t: nat, newTask: bool)
    | ReadsStore(t: nat)
    | Decides(t: nat)
    | AddsTask(t: nat)
    | NotesTotal(t: nat)
    | AsksModel(t: nat)
    | ModelFails(t: nat)
    | ModelAnswers(t: nat, tokens: nat, cost: Cost)
    | AddsCharge(t: nat)
    | AsksTool(t: nat)
    | Ends(t: nat)
    | Cancels(t: nat)                           // cancelled, or a hook raised, at any await

  function TaskOf(w: World, t: nat): Task {
    if t in w.tasks then w.tasks[t] else Task(Resting, CLEARED)
  }

  function Late(w: World, t: nat): nat {
    if t in w.late then w.late[t] else 0
  }

  function With(w: World, t: nat, task: Task): World {
    w.(tasks := w.tasks[t := task])
  }

  predicate Reached(l: Limits, used: Usage) { Exceeded(l.quota, used, false) }

  function Next(l: Limits, w: World, e: Event): World {
    var task := TaskOf(w, e.t);
    match e
    case Starts(t, newTask) =>
      if task.phase.Resting? then With(w, t, Task(Reading(newTask), Begun(task.state, newTask))) else w
    case ReadsStore(t) =>
      if task.phase.Reading? then With(w, t, task.(phase := Read(task.phase.newTask, w.total))) else w
    case Decides(t) =>
      if task.phase.Read? then
        var (state, stop) := Admitted(l, task.state, task.phase.newTask, task.phase.used);
        With(w, t, Task(if stop then Resting else if task.phase.newTask then Joining else Running, state))
      else w
    case AddsTask(t) =>
      if task.phase.Joining? then
        var total := Plus(w.total, Usage(0, 0.0, 1));
        With(w, t, task.(phase := Told(total))).(total := total)
      else w
    case NotesTotal(t) =>
      if task.phase.Told? then With(w, t, Task(Running, task.state.(known := Some(task.phase.total)))) else w
    case AsksModel(t) =>
      if task.phase.Running? then
        var (state, stop) := Requested(l, task.state);
        With(w, t, Task(if stop then Resting else Calling, state))
      else w
    case ModelFails(t) => if task.phase.Calling? then With(w, t, task.(phase := Running)) else w
    case ModelAnswers(t, tokens, cost) =>
      if task.phase.Calling? then With(w, t, Task(Owing(tokens, cost), Responded(task.state, tokens, cost))) else w
    case AddsCharge(t) =>
      if task.phase.Owing? then
        var total := Plus(w.total, Usage(task.phase.tokens, task.phase.cost, 0));
        With(w, t, task.(phase := Told(total))).(
          total := total, late := if Reached(l, w.total) then w.late[t := Late(w, t) + 1] else w.late)
      else w
    case AsksTool(t) =>
      if task.phase.Running? then With(w, t, task.(state := ToolRequested(l, task.state).0)) else w
    case Ends(t) => if task.phase.Running? then With(w, t, task.(phase := Resting)) else w
    case Cancels(t) => With(w, t, task.(phase := Resting))
  }

  function After(l: Limits, w: World, events: seq<Event>): World {
    if events == [] then w else Next(l, After(l, w, events[..|events| - 1]), events[|events| - 1])
  }

  // How many more model-call charges a task may still add once the quota is reached: one if a
  // call of its own is under way, or if what it last saw of the store is out of date.
  function Allowance(l: Limits, task: Task): nat {
    match task.phase
    case Resting => 0
    case Reading(_) => 0
    case Read(newTask, used) => if newTask || Reached(l, used) then 0 else 1
    case Joining => 0
    case Told(total) => if Reached(l, total) then 0 else 1
    case Running => if task.state.known.Some? && Reached(l, task.state.known.value) then 0 else 1
    case Calling => 1
    case Owing(_, _) => 1
  }

  // The limit stays reached, and no step can raise late charges plus allowance of any task.
  lemma StepSpendsAllowance(l: Limits, w: World, e: Event, t: nat)
    requires Reached(l, w.total)
    ensures Reached(l, Next(l, w, e).total)
    ensures Late(Next(l, w, e), t) + Allowance(l, TaskOf(Next(l, w, e), t)) <= Late(w, t) + Allowance(l, TaskOf(w, t))
  {
  }

  // Bounded overshoot: from the moment the stored total reaches a token or cost limit, in every
  // interleaving, each task adds at most one more model-call charge, and a task that starts or
  // resumes afterwards adds none.
  lemma {:induction false} OvershootIsBounded(l: Limits, w: World, events: seq<Event>, t: nat)
    requires Reached(l, w.total)
    ensures Reached(l, After(l, w, events).total)
    ensures Late(After(l, w, events), t) + Allowance(l, TaskOf(After(l, w, events), t))
            <= Late(w, t) + Allowance(l, TaskOf(w, t))
  {
    if events != [] {
      var n := |events| - 1;
      OvershootIsBounded(l, w, events[..n], t);
      StepSpendsAllowance(l, After(l, w, events[..n]), events[n], t);
    }
  }

  lemma AtMostOneMoreCharge(l: Limits, w: World, events: seq<Event>, t: nat)
    requires Reached(l, w.total)
    ensures Late(After(l, w, events), t) <= Late(w, t) + 1
    ensures TaskOf(w, t).phase.Resting? || TaskOf(w, t).phase.Reading? ==> Late(After(l, w, events), t) == Late(w, t)
  {
    OvershootIsBounded(l, w, events, t);
    LateNeverDrops(l, w, events, t);
  }

  lemma {:induction false} LateNeverDrops(l: Limits, w: World, events: seq<Event>, t: nat)
    ensures Late(After(l, w, events), t) >= Late(w, t)
  {
    if events != [] { LateNeverDrops(l, w, events[..|events| - 1], t); }
  }

  // The allowance is exactly what an uninterrupted task can still do: it adds one late charge
  // when it has one left and no limit of its own or refusal stops it.
  lemma AllowanceCanBeSpent(l: Limits, w: World, t: nat)
    requires Reached(l, w.total) && TaskOf(w, t).phase == Running && !Exhausted(l, TaskOf(w, t).state)
    ensures Late(After(l, w, [AsksModel(t), ModelAnswers(t, 1, 0.0), AddsCharge(t)]), t) == Late(w, t) + 1
  {
    var a := AsksModel(t);
    var b := ModelAnswers(t, 1, 0.0);
    var c := AddsCharge(t);
    assert [a, b, c][..2] == [a, b] && [a, b][..1] == [a] && [a][..0] == [];
    assert After(l, w, [a]) == Next(l, w, a);
    assert After(l, w, [a, b]) == Next(l, Next(l, w, a), b);
  }

  // ---- A task that has used up its budget ------------------------------------------------

  predicate AtMost(a: Usage, b: Usage) {
    a.tokens <= b.tokens && a.cost <= b.cost && a.tasks <= b.tasks
  }

  // What a task has just read or been told of the store, if it still has to write that down.
  function Unwritten(task: Task): Option<Usage> {
    match task.phase
    case Read(_, used) => Some(used)
    case Told(total) => Some(total)
    case _ => None
  }

  // What a task knows of the store is never ahead of it, and never goes back.
  ghost predicate KnowsThePast(w: World) {
    forall t :: PastOnly(w, TaskOf(w, t))
  }

  ghost predicate PastOnly(w: World, task: Task) {
    && (task.state.known.Some? ==> AtMost(task.state.known.value, w.total))
    && (Unwritten(task).Some? ==> AtMost(Unwritten(task).value, w.total))
    && (task.state.known.Some? && Unwritten(task).Some? ==> AtMost(task.state.known.value, Unwritten(task).value))
  }

  lemma StepKnowsThePast(l: Limits, w: World, e: Event)
    requires KnowsThePast(w)
    ensures KnowsThePast(Next(l, w, e))
  {
    OwnStepKnowsThePast(l, w, e);
    forall t | t != e.t ensures PastOnly(Next(l, w, e), TaskOf(Next(l, w, e), t)) {
      OthersAreUntouched(l, w, e, t);
      assert PastOnly(w, TaskOf(w, t));
    }
  }

  lemma OwnStepKnowsThePast(l: Limits, w: World, e: Event)
    requires PastOnly(w, TaskOf(w, e.t))
    ensures PastOnly(Next(l, w, e), TaskOf(Next(l, w, e), e.t))
  {
  }

  lemma OthersAreUntouched(l: Limits, w: World, e: Event, t: nat)
    requires t != e.t
    ensures TaskOf(Next(l, w, e), t) == TaskOf(w, t) && AtMost(w.total, Next(l, w, e).total)
  {
  }

  lemma {:induction false} AlwaysKnowsThePast(l: Limits, w: World, events: seq<Event>)
    requires KnowsThePast(w)
    ensures KnowsThePast(After(l, w, events))
  {
    if events != [] {
      var n := |events| - 1;
      AlwaysKnowsThePast(l, w, events[..n]);
      StepKnowsThePast(l, After(l, w, events[..n]), events[n]);
    }
  }

  lemma StepStaysExhausted(l: Limits, w: World, e: Event, t: nat)
    requires KnowsThePast(w) && Exhausted(l, TaskOf(w, t).state) && e != Starts(t, true)
    ensures var s := TaskOf(Next(l, w, e), t).state;
            && Exhausted(l, s) && s.modelCalls == TaskOf(w, t).state.modelCalls
            && s.toolCalls == TaskOf(w, t).state.toolCalls
  {
    assert PastOnly(w, TaskOf(w, t));
  }

  // A task that has used up its budget, its quota or had a tool call refused stays stopped:
  // whatever it and the user's other tasks do, resumes included, it starts no further model or
  // tool call until a new task begins.
  lemma {:induction false} ExhaustionLasts(l: Limits, w: World, events: seq<Event>, t: nat)
    requires KnowsThePast(w) && Exhausted(l, TaskOf(w, t).state)
    requires Starts(t, true) !in events
    ensures var s := TaskOf(After(l, w, events), t).state;
            && Exhausted(l, s) && s.modelCalls == TaskOf(w, t).state.modelCalls
            && s.toolCalls == TaskOf(w, t).state.toolCalls
  {
    if events != [] {
      var n := |events| - 1;
      ExhaustionLasts(l, w, events[..n], t);
      AlwaysKnowsThePast(l, w, events[..n]);
      StepStaysExhausted(l, After(l, w, events[..n]), events[n], t);
    }
  }

  // So a refused tool call ends the task, even when none of its own counters is used up.
  lemma RefusalEndsTheTask(l: Limits, w: World, events: seq<Event>, t: nat)
    requires KnowsThePast(w) && TaskOf(w, t).phase.Running? && ToolRequested(l, TaskOf(w, t).state).1
    requires Starts(t, true) !in events
    ensures var after := After(l, Next(l, w, AsksTool(t)), events);
            Exhausted(l, TaskOf(after, t).state) && TaskOf(after, t).state.modelCalls == TaskOf(w, t).state.modelCalls
  {
    StepKnowsThePast(l, w, AsksTool(t));
    ExhaustionLasts(l, Next(l, w, AsksTool(t)), events, t);
  }

  // ---- The store loses nothing -----------------------------------------------------------

  function Charged(l: Limits, w: World, e: Event): Usage {
    var phase := TaskOf(w, e.t).phase;
    if e.AddsTask? && phase.Joining? then Usage(0, 0.0, 1)
    else if e.AddsCharge? && phase.Owing? then Usage(phase.tokens, phase.cost, 0)
    else NOTHING
  }

  function AllCharges(l: Limits, w: World, events: seq<Event>): Usage {
    if events == [] then NOTHING
    else
      var n := |events| - 1;
      Plus(AllCharges(l, w, events[..n]), Charged(l, After(l, w, events[..n]), events[n]))
  }

  // Concurrent charges are never lost: the total is the start plus every charge of the run.
  lemma {:induction false} TotalIsEveryCharge(l: Limits, w: World, events: seq<Event>)
    ensures After(l, w, events).total == Plus(w.total, AllCharges(l, w, events))
  {
    if events != [] {
      var n := |events| - 1;
      var before := After(l, w, events[..n]);
      TotalIsEveryCharge(l, w, events[..n]);
      StepAddsItsCharge(l, before, events[n]);
      PlusAssociates(w.total, AllCharges(l, w, events[..n]), Charged(l, before, events[n]));
    }
  }

  lemma StepAddsItsCharge(l: Limits, w: World, e: Event)
    ensures Next(l, w, e).total == Plus(w.total, Charged(l, w, e))
  {
  }

  lemma PlusAssociates(a: Usage, b: Usage, c: Usage)
    ensures Plus(Plus(a, b), c) == Plus(a, Plus(b, c))
  {
  }
}
