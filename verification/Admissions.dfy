// When the budget stops a task, by comparing what was used with the limits directly, and what
// that comes to over all the user's tasks (max_ai/capabilities/middleware/budget.py,
// max_ai/core/model/quota.py).
module Admissions {
  import opened Common
  import opened Budget
  import opened BudgetRuns

  // ---- One task --------------------------------------------------------------------------

  // The task's own budget is used up, or a tool call of its was refused.
  predicate UsedUp(l: Limits, s: State) {
    || s.blocked
    || (l.maxTokens.Some? && s.tokens >= l.maxTokens.value)
    || (l.maxCost.Some? && s.cost >= l.maxCost.value)
    || (l.maxModelCalls.Some? && s.modelCalls >= l.maxModelCalls.value)
  }

  // The user's tokens or costs have come to the quota.
  predicate QuotaSpent(q: Quota, used: Usage) {
    (q.maxTokens.Some? && used.tokens >= q.maxTokens.value) || (q.maxCost.Some? && used.cost >= q.maxCost.value)
  }

  predicate TasksSpent(q: Quota, used: Usage) {
    q.maxTasks.Some? && used.tasks >= q.maxTasks.value
  }

  // A run stops before it starts if and only if the task's own budget or the user's quota is
  // used up; the number of tasks counts for a new task and never for a resumed one. What was
  // read is written down in any case.
  lemma StartStopsIff(l: Limits, s: State, newTask: bool, used: Usage)
    ensures Admitted(l, s, newTask, used).1
            <==> UsedUp(l, s) || QuotaSpent(l.quota, used) || (newTask && TasksSpent(l.quota, used))
    ensures Admitted(l, s, newTask, used).0 == s.(known := Some(used))
  {
  }

  // A new task begins with nothing used; a resumed one goes on where it was.
  lemma NewTaskBeginsFromZero(s: State)
    ensures Begun(s, true) == State(0, 0.0, 0, 0, false, None) && Begun(s, false) == s
  {
  }

  // A model call is let through and counted if and only if nothing is used up, by what the task
  // knows of the quota.
  lemma RequestStopsIff(l: Limits, s: State)
    ensures Requested(l, s).1 <==> UsedUp(l, s) || (s.known.Some? && QuotaSpent(l.quota, s.known.value))
    ensures Requested(l, s).0 == if Requested(l, s).1 then s else s.(modelCalls := s.modelCalls + 1)
  {
  }

  // A tool call is let through and counted if and only if, besides, the task has tool calls left;
  // a refusal blocks the task.
  lemma ToolRefusedIff(l: Limits, s: State)
    ensures ToolRequested(l, s).1
            <==> UsedUp(l, s) || (s.known.Some? && QuotaSpent(l.quota, s.known.value))
                 || (l.maxToolCalls.Some? && s.toolCalls >= l.maxToolCalls.value)
    ensures ToolRequested(l, s).0 ==
            if ToolRequested(l, s).1 then s.(blocked := true) else s.(toolCalls := s.toolCalls + 1)
  {
  }

  // A task below every limit is let through at every hook.
  lemma BelowEveryLimit(l: Limits, s: State, newTask: bool, used: Usage)
    requires !UsedUp(l, s) && !QuotaSpent(l.quota, used) && !TasksSpent(l.quota, used)
    requires s.known.Some? ==> !QuotaSpent(l.quota, s.known.value)
    requires l.maxToolCalls.Some? ==> s.toolCalls < l.maxToolCalls.value
    ensures !Admitted(l, s, newTask, used).1 && !Requested(l, s).1 && !ToolRequested(l, s).1
  {
    StartStopsIff(l, s, newTask, used);
    RequestStopsIff(l, s);
    ToolRefusedIff(l, s);
  }

  // ---- Whole runs: a task's own limits ---------------------------------------------------

  ghost predicate CallsWithin(l: Limits, s: State) {
    && (l.maxModelCalls.Some? ==> s.modelCalls <= l.maxModelCalls.value)
    && (l.maxToolCalls.Some? ==> s.toolCalls <= l.maxToolCalls.value)
  }

  // In no run does a task make more model or tool calls than it may.
  lemma {:induction false} CallsStayWithin(l: Limits, w: World, events: seq<Event>, t: nat)
    requires CallsWithin(l, TaskOf(w, t).state)
    ensures CallsWithin(l, TaskOf(After(l, w, events), t).state)
  {
    if events != [] {
      var n := |events| - 1;
      CallsStayWithin(l, w, events[..n], t);
      StepStaysWithin(l, After(l, w, events[..n]), events[n], t);
    }
  }

  lemma StepStaysWithin(l: Limits, w: World, e: Event, t: nat)
    requires CallsWithin(l, TaskOf(w, t).state)
    ensures CallsWithin(l, TaskOf(Next(l, w, e), t).state)
  {
    RequestStopsIff(l, TaskOf(w, t).state);
    ToolRefusedIff(l, TaskOf(w, t).state);
  }

  // The tokens and costs of the model calls answered since the task began.
  function Spent(l: Limits, w: World, events: seq<Event>, t: nat): Usage {
    if events == [] then Usage(TaskOf(w, t).state.tokens, TaskOf(w, t).state.cost, 0)
    else
      var n := |events| - 1;
      var phase := TaskOf(After(l, w, events[..n]), t).phase;
      var before := Spent(l, w, events[..n], t);
      match events[n]
      case Starts(u, newTask) => if u == t && newTask && phase.Resting? then Usage(0, 0.0, 0) else before
      case ModelAnswers(u, tokens, cost) =>
        if u == t && phase.Calling? then Plus(before, Usage(tokens, cost, 0)) else before
      case _ => before
  }

  // What a task counts against its own limits is exactly that.
  lemma {:induction false} TaskCountsItsOwn(l: Limits, w: World, events: seq<Event>, t: nat)
    ensures var s := TaskOf(After(l, w, events), t).state;
            Spent(l, w, events, t) == Usage(s.tokens, s.cost, 0)
  {
    if events != [] {
      TaskCountsItsOwn(l, w, events[..|events| - 1], t);
    }
  }

  // ---- Whole runs: the number of tasks ---------------------------------------------------

  // New tasks that read the store while it was below the limit, and have not been counted yet.
  predicate Slipping(q: Quota, task: Task) {
    match task.phase
    case Read(newTask, used) => newTask && !TasksSpent(q, used)
    case Joining => true
    case _ => false
  }

  function AllSlipping(q: Quota, w: World): set<nat> {
    set t | t in w.tasks && Slipping(q, w.tasks[t])
  }

  // A new task that reads the store when the limit is reached stops there, and is not counted.
  lemma LateTaskIsStopped(l: Limits, w: World, t: nat)
    requires TaskOf(w, t).phase == Reading(true) && TasksSpent(l.quota, w.total)
    ensures var read := Next(l, w, ReadsStore(t));
            var decided := Next(l, read, Decides(t));
            && TaskOf(decided, t).phase == Resting && decided.total == w.total
            && Next(l, decided, AddsTask(t)).total == w.total
  {
    StartStopsIff(l, TaskOf(w, t).state, true, w.total);
  }

  // Once the limit is reached every step counts at most one more task, which then is no longer
  // one that may slip through; and none joins those.
  lemma StepSlips(l: Limits, w: World, e: Event)
    requires TasksSpent(l.quota, w.total)
    ensures TasksSpent(l.quota, Next(l, w, e).total)
    ensures Next(l, w, e).total.tasks + |AllSlipping(l.quota, Next(l, w, e))| <=
            w.total.tasks + |AllSlipping(l.quota, w)|
  {
    var v, before, after := Next(l, w, e), AllSlipping(l.quota, w), AllSlipping(l.quota, Next(l, w, e));
    SlippingOnlyShrinks(l, w, e);
    if v.total.tasks == w.total.tasks {
      FewerIn(after, before);
    } else {
      FewerIn(after, before - {e.t});
    }
  }

  lemma SlippingOnlyShrinks(l: Limits, w: World, e: Event)
    requires TasksSpent(l.quota, w.total)
    ensures var v := Next(l, w, e);
            && AllSlipping(l.quota, v) <= AllSlipping(l.quota, w)
            && w.total.tasks <= v.total.tasks <= w.total.tasks + 1
            && (v.total.tasks > w.total.tasks ==>
                  e.t in AllSlipping(l.quota, w) && e.t !in AllSlipping(l.quota, v))
  {
    var v, task := Next(l, w, e), TaskOf(w, e.t);
    if e.Decides? && task.phase.Read? {
      StartStopsIff(l, task.state, task.phase.newTask, task.phase.used);
    }
    forall t | t in AllSlipping(l.quota, v) ensures t in AllSlipping(l.quota, w) {
      assert t != e.t ==> TaskOf(v, t) == TaskOf(w, t);
      assert TaskOf(v, t) == v.tasks[t];
    }
  }

  lemma FewerIn(a: set<nat>, b: set<nat>)
    requires a <= b
    ensures |a| <= |b|
  {
    if x :| x in a {
      FewerIn(a - {x}, b - {x});
    }
  }

  lemma {:induction false} TasksOvershootBySlipping(l: Limits, w: World, events: seq<Event>)
    requires TasksSpent(l.quota, w.total)
    ensures TasksSpent(l.quota, After(l, w, events).total)
    ensures After(l, w, events).total.tasks + |AllSlipping(l.quota, After(l, w, events))| <=
            w.total.tasks + |AllSlipping(l.quota, w)|
  {
    if events != [] {
      var n := |events| - 1;
      TasksOvershootBySlipping(l, w, events[..n]);
      StepSlips(l, After(l, w, events[..n]), events[n]);
    }
  }

  // The number of tasks goes over its limit by at most the new tasks that had read the store
  // when the limit was reached: in every run from below there is a moment with exactly
  // `maxTasks` counted, unless the limit is never reached, after which only those get in.
  lemma {:induction false} TasksAreBounded(l: Limits, w: World, events: seq<Event>) returns (k: nat)
    requires l.quota.maxTasks.Some? && w.total.tasks <= l.quota.maxTasks.value
    ensures k <= |events|
    ensures var limit := l.quota.maxTasks.value;
            var at := After(l, w, events[..k]);
            if at.total.tasks == limit then After(l, w, events).total.tasks <= limit + |AllSlipping(l.quota, at)|
            else k == |events| && After(l, w, events).total.tasks < limit
  {
    k := 0;
    var limit := l.quota.maxTasks.value;
    while k < |events| && After(l, w, events[..k]).total.tasks < limit
      invariant 0 <= k <= |events| && After(l, w, events[..k]).total.tasks <= limit
    {
      assert events[..k + 1][..k] == events[..k];
      CountsOneByOne(l, After(l, w, events[..k]), events[k]);
      k := k + 1;
    }
    assert events[..|events|] == events && events == events[..k] + events[k..];
    AfterConcat(l, w, events[..k], events[k..]);
    if After(l, w, events[..k]).total.tasks == limit {
      TasksOvershootBySlipping(l, After(l, w, events[..k]), events[k..]);
    }
  }

  // How many new tasks a run has let in.
  function LetIn(l: Limits, w: World, events: seq<Event>): nat {
    if events == [] then 0
    else
      var n := |events| - 1;
      var last := events[n];
      LetIn(l, w, events[..n]) +
      if last.AddsTask? && TaskOf(After(l, w, events[..n]), last.t).phase == Joining then 1 else 0
  }

  // The store counts exactly those.
  lemma {:induction false} EveryTaskIsCounted(l: Limits, w: World, events: seq<Event>)
    ensures After(l, w, events).total.tasks == w.total.tasks + LetIn(l, w, events)
  {
    if events != [] {
      EveryTaskIsCounted(l, w, events[..|events| - 1]);
    }
  }

  lemma CountsOneByOne(l: Limits, w: World, e: Event)
    ensures w.total.tasks <= Next(l, w, e).total.tasks <= w.total.tasks + 1
  {
  }

  lemma {:induction false} AfterConcat(l: Limits, w: World, a: seq<Event>, b: seq<Event>)
    ensures After(l, w, a + b) == After(l, After(l, w, a), b)
  {
    if b == [] {
      assert a + b == a;
    } else {
      assert (a + b)[..|a + b| - 1] == a + b[..|b| - 1];
      AfterConcat(l, w, a, b[..|b| - 1]);
    }
  }
}
