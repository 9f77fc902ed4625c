// How much of the window live messages may use (max_ai/core/compaction/budget.py) and why a
// compaction within its budget does not trigger the next one. Ratios are exact reals.
module TokenBudget {
  import opened Common

  datatype Settings = Settings(promptBudget: nat, safetyMarginRatio: real)

  function Max(a: int, b: int): int { if a >= b then a else b }

  // The rendered prompt when its size is known, the configured reserve otherwise.
  function PromptTokens(promptTokens: Option<int>, s: Settings): int {
    if promptTokens.Some? && promptTokens.value > 0 then promptTokens.value else s.promptBudget
  }

  function SafetyMargin(maxContext: int, s: Settings): int {
    (maxContext as real * s.safetyMarginRatio).Floor
  }

  // Whenever live messages have any room, the four parts fill the window exactly.
  function Capacity(maxContext: int, maxOutput: int, promptTokens: Option<int>, s: Settings): (capacity: nat)
    ensures capacity > 0 ==>
              PromptTokens(promptTokens, s) + maxOutput + SafetyMargin(maxContext, s) + capacity == maxContext
    ensures capacity == 0 ==>
              maxContext <= 0 || maxContext <= PromptTokens(promptTokens, s) + maxOutput + SafetyMargin(maxContext, s)
  {
    if maxContext <= 0 then 0
    else Max(0, maxContext - PromptTokens(promptTokens, s) - maxOutput - SafetyMargin(maxContext, s))
  }

  function Share(capacity: nat, ratio: real): nat
    requires 0.0 < ratio < 1.0
  {
    if capacity == 0 then 0 else Max(1, (capacity as real * ratio).Floor)
  }

  predicate OverLimit(live: int, threshold: int) {
    threshold > 0 && live > threshold
  }

  // A share is its part of the capacity, rounded down, but at least one token of any capacity.
  lemma ShareIs(capacity: nat, ratio: real)
    requires 0.0 < ratio < 1.0
    ensures capacity == 0 ==> Share(capacity, ratio) == 0
    ensures capacity > 0 ==> Share(capacity, ratio) >= 1
    ensures capacity as real * ratio < Share(capacity, ratio) as real + 1.0
    ensures Share(capacity, ratio) > 1 ==> Share(capacity, ratio) as real <= capacity as real * ratio
  {
  }

  // The margin is its part of the window, rounded down; and the rendered prompt counts with its
  // own size when that is known.
  lemma MarginAndPromptAre(maxContext: nat, promptTokens: Option<int>, s: Settings)
    ensures SafetyMargin(maxContext, s) as real <= maxContext as real * s.safetyMarginRatio
    ensures maxContext as real * s.safetyMarginRatio < SafetyMargin(maxContext, s) as real + 1.0
    ensures promptTokens.Some? && promptTokens.value > 0 ==> PromptTokens(promptTokens, s) == promptTokens.value
    ensures promptTokens == None || promptTokens.value <= 0 ==> PromptTokens(promptTokens, s) == s.promptBudget
  {
  }

  lemma ShareIsMonotone(capacity: nat, low: real, high: real)
    requires 0.0 < low < high < 1.0
    ensures Share(capacity, low) <= Share(capacity, high)
    ensures Share(capacity, high) <= capacity
  {
    var c := capacity as real;
    ScaleIsMonotone(c, low, high);
    ScaleIsMonotone(c, high, 1.0);
    FloorIsMonotone(c * low, c * high);
    FloorIsMonotone(c * high, c);
  }

  lemma ScaleIsMonotone(c: real, a: real, b: real)
    requires 0.0 <= c && a <= b
    ensures c * a <= c * b
  {
  }

  lemma FloorIsMonotone(x: real, y: real)
    requires x <= y
    ensures x.Floor <= y.Floor
  {
  }

  // A result of `tokens` tokens beside this history does not trigger the next check.
  predicate Quiet(history: nat, tokens: nat, threshold: nat) {
    !OverLimit(history + tokens, threshold)
  }

  function StrategyBudget(capacity: nat, keepRatio: real, history: nat): nat
    requires 0.0 < keepRatio < 1.0
  {
    Max(0, Share(capacity, keepRatio) - history)
  }

  // History and budget together fill the share that is kept; a history beyond it leaves none.
  lemma StrategyBudgetIs(capacity: nat, keepRatio: real, history: nat)
    requires 0.0 < keepRatio < 1.0
    ensures var keep, budget := Share(capacity, keepRatio), StrategyBudget(capacity, keepRatio, history);
            if history <= keep then history + budget == keep else budget == 0
  {
  }

  // No compaction thrash: every result within the budget handed to the strategy silences the
  // next default check, if and only if the history alone is within the threshold. (With no
  // capacity the threshold is 0 and nothing ever triggers.)
  lemma NoThrashIff(capacity: nat, history: nat, keepRatio: real, threshold: real)
    requires 0.0 < keepRatio < threshold < 1.0
    ensures (forall tokens: nat :: tokens <= StrategyBudget(capacity, keepRatio, history) ==>
                                     Quiet(history, tokens, Share(capacity, threshold)))
            <==> capacity == 0 || history <= Share(capacity, threshold)
  {
    ShareIsMonotone(capacity, keepRatio, threshold);
    var keep, limit := Share(capacity, keepRatio), Share(capacity, threshold);
    assert limit == 0 <==> capacity == 0;
    WithinBudgetIff(history, keep, limit);
  }

  lemma WithinBudgetIff(history: nat, keep: nat, limit: nat)
    requires keep <= limit
    ensures (forall tokens: nat :: tokens <= Max(0, keep - history) ==> Quiet(history, tokens, limit))
            <==> limit == 0 || history <= limit
  {
    if limit > 0 && history > limit {
      assert !Quiet(history, 0, limit);
    }
  }
}
