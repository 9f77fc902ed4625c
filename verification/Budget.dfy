// Budget per task and quota per user (max_ai/capabilities/middleware/budget.py,
// max_ai/core/model/quota.py). Costs are exact reals; wall-clock time budgets are left out.
module Budget {
  import opened Common

  type Cost = c: real | 0.0 <= c

  datatype Usage = Usage(tokens: nat, cost: Cost, tasks: nat)

  const NOTHING := Usage(0, 0.0, 0)

  function Plus(a: Usage, b: Usage): Usage {
    Usage(a.tokens + b.tokens, a.cost + b.cost, a.tasks + b.tasks)
  }

  // Adding up counts tokens, costs and tasks alike.
  lemma PlusIs(a: Usage, b: Usage)
    ensures Plus(a, b).tokens == a.tokens + b.tokens
    ensures Plus(a, b).cost == a.cost + b.cost
    ensures Plus(a, b).tasks == a.tasks + b.tasks
  {
  }

  datatype Quota = Quota(maxTokens: Option<nat>, maxCost: Option<real>, maxTasks: Option<nat>)

  predicate Reaches(limit: Option<nat>, used: nat) { limit.Some? && used >= limit.value }

  predicate ReachesCost(limit: Option<real>, used: real) { limit.Some? && used >= limit.value }

  // The task limit only applies when a new task wants to start.
  predicate Exceeded(q: Quota, used: Usage, startingTask: bool) {
    Reaches(q.maxTokens, used.tokens) || ReachesCost(q.maxCost, used.cost)
    || (startingTask && Reaches(q.maxTasks, used.tasks))
  }

  // Limits of one task; None means no limit.
  datatype Limits = Limits(
    maxTokens: Option<nat>, maxCost: Option<real>, maxModelCalls: Option<nat>, maxToolCalls: Option<nat>, quota: Quota)

  // The middleware's state for one run. `known` is the quota total last seen.
  datatype State = State(tokens: nat, cost: Cost, modelCalls: nat, toolCalls: nat, blocked: bool, known: Option<Usage>)

  const CLEARED := State(0, 0.0, 0, 0, false, None)

  predicate Exhausted(l: Limits, s: State) {
    || s.blocked
    || Reaches(l.maxTokens, s.tokens) || ReachesCost(l.maxCost, s.cost) || Reaches(l.maxModelCalls, s.modelCalls)
    || (s.known.Some? && Exceeded(l.quota, s.known.value, false))
  }

  // ---- The hooks, cut at their awaits ----------------------------------------------------

  // The store every run of the user shares; `add` is atomic.
  class QuotaStore {
    var total: Usage

    constructor ()
      ensures total == NOTHING
    {
      total := NOTHING;
    }

    method Add(delta: Usage) returns (after: Usage)
      modifies this
      ensures total == after == Plus(old(total), delta)
    {
      total := Plus(total, delta);
      after := total;
    }
  }

  // on_run_start up to its read of the store: a new task starts from zero.
  function Begun(s: State, newTask: bool): State {
    if newTask then CLEARED else s
  }

  // on_run_start once the store's usage has been read: the state then, and whether the run stops.
  function Admitted(l: Limits, s: State, newTask: bool, used: Usage): (State, bool) {
    var seen := s.(known := Some(used));
    (seen, (newTask && Exceeded(l.quota, used, true)) || Exhausted(l, seen))
  }

  // on_model_request: stop, or count the call.
  function Requested(l: Limits, s: State): (State, bool) {
    if Exhausted(l, s) then (s, true) else (s.(modelCalls := s.modelCalls + 1), false)
  }

  // on_model_response up to its charge.
  function Responded(s: State, tokens: nat, cost: Cost): State {
    s.(tokens := s.tokens + tokens, cost := s.cost + cost)
  }

  // on_tool_request: refuse the call and block the task, or count it.
  function ToolRequested(l: Limits, s: State): (State, bool) {
    if Exhausted(l, s) || Reaches(l.maxToolCalls, s.toolCalls) then (s.(blocked := true), true)
    else (s.(toolCalls := s.toolCalls + 1), false)
  }

  class RunState {
    const limits: Limits
    var tokens: nat
    var cost: Cost
    var modelCalls: nat
    var toolCalls: nat
    var blocked: bool
    var known: Option<Usage>

    constructor (limits: Limits)
      ensures Now() == CLEARED && this.limits == limits
    {
      this.limits := limits;
      tokens, cost, modelCalls, toolCalls, blocked, known := 0, 0.0, 0, 0, false, None;
    }

    function Now(): State
      reads this
    {
      State(tokens, cost, modelCalls, toolCalls, blocked, known)
    }

    method IsExhausted() returns (e: bool)
      ensures e == Exhausted(limits, Now())
    {
      if blocked { return true; }
      e := (limits.maxTokens.Some? && tokens >= limits.maxTokens.value)
      || (limits.maxCost.Some? && cost >= limits.maxCost.value)
      || (limits.maxModelCalls.Some? && modelCalls >= limits.maxModelCalls.value);
      if !e && known.Some? { e := Exceeded(limits.quota, known.value, false); }
    }

    method OnRunStart(newTask: bool, used: Usage) returns (stop: bool)
      modifies this
      ensures (Now(), stop) == Admitted(limits, Begun(old(Now()), newTask), newTask, used)
    {
      if newTask { tokens, cost, modelCalls, toolCalls, blocked, known := 0, 0.0, 0, 0, false, None; }
      known := Some(used);
      if newTask && Exceeded(limits.quota, used, true) { return true; }
      stop := IsExhausted();
    }

    // `_charge`: add to the shared store and keep the total it answers with.
    method Charge(store: QuotaStore, delta: Usage)
      modifies this`known, store
      ensures store.total == Plus(old(store.total), delta)
      ensures Now() == old(Now()).(known := Some(store.total))
    {
      var total := store.Add(delta);
      known := Some(total);
    }

    method OnModelRequest() returns (stop: bool)
      modifies this
      ensures (Now(), stop) == Requested(limits, old(Now()))
    {
      stop := IsExhausted();
      if !stop { modelCalls := modelCalls + 1; }
    }

    method OnModelResponse(store: QuotaStore, tokensUsed: nat, costUsed: Cost)
      modifies this, store
      ensures store.total == Plus(old(store.total), Usage(tokensUsed, costUsed, 0))
      ensures Now() == Responded(old(Now()), tokensUsed, costUsed).(known := Some(store.total))
    {
      tokens, cost := tokens + tokensUsed, cost + costUsed;
      Charge(store, Usage(tokensUsed, costUsed, 0));
    }

    method OnToolRequest() returns (refused: bool)
      modifies this
      ensures (Now(), refused) == ToolRequested(limits, old(Now()))
    {
      refused := IsExhausted();
      if !refused && limits.maxToolCalls.Some? && toolCalls >= limits.maxToolCalls.value { refused := true; }
      if refused { blocked := true; } else { toolCalls := toolCalls + 1; }
    }
  }
}
