// What pruning leaves alone: the newest groups, the current turn, every message that is not the
// harness's, and every text that is short enough (_prune and _shrink in max_ai/base/compaction.py).
module PruneBounds {
  import opened Common
  import opened Transcript
  import opened Groups
  import opened Compaction

  // ---- The newest groups -----------------------------------------------------------------

  // How many groups at the end are protected.
  function Protected(groups: seq<Group>, c: Config): (n: nat)
    ensures n <= |groups|
  {
    if c.minKeepGroups <= |groups| then c.minKeepGroups else |groups|
  }

  // The pruned transcript ends with the newest `minKeepGroups` groups, or with all of them when
  // there are fewer, exactly as they were.
  lemma NewestAreKept(groups: seq<Group>, c: Config, tk: Tokenizer)
    requires forall g :: g in groups ==> g.messages != []
    ensures var first := |groups| - Protected(groups, c);
            PrunedGroups(groups, |groups|, c, tk) == PrunedGroups(groups, first, c, tk) + groups[first..]
  {
    KeptFrom(groups, |groups|, c, tk);
    assert groups[..|groups|] == groups;
  }

  lemma {:induction false} KeptFrom(groups: seq<Group>, n: nat, c: Config, tk: Tokenizer)
    requires forall g :: g in groups ==> g.messages != []
    requires |groups| - Protected(groups, c) <= n <= |groups|
    ensures var first := |groups| - Protected(groups, c);
            PrunedGroups(groups, n, c, tk) == PrunedGroups(groups, first, c, tk) + groups[first..n]
  {
    hide PrunedMessages, PrunedGroup, Protected;
    var first := |groups| - Protected(groups, c);
    if n > first {
      KeptFrom(groups, n - 1, c, tk);
      assert groups[n - 1] in groups;
      ProtectedIsKept(groups, n - 1, c, tk);
      assert groups[first..n] == groups[first..n - 1] + [groups[n - 1]];
    } else {
      assert groups[first..n] == [];
    }
  }

  lemma ProtectedIsKept(groups: seq<Group>, i: nat, c: Config, tk: Tokenizer)
    requires |groups| - Protected(groups, c) <= i < |groups| && groups[i].messages != []
    ensures PrunedGroup(groups, i, c, tk) == [groups[i]]
  {
  }

  // ---- What may be dropped ---------------------------------------------------------------

  // The block belongs to an earlier turn: a later one begins with a message of the user's own.
  ghost predicate OfEarlierTurn(groups: seq<Group>, i: nat) {
    exists j :: i < j < |groups| && groups[j].messages != [] && groups[j].messages[0].User?
                && groups[j].messages[0].source != Name("harness")
  }

  // The block is older than both bounds, and dropping is on.
  ghost predicate OldEnough(groups: seq<Group>, i: nat, c: Config) {
    c.dropHarnessMessages && i + c.minKeepGroups < |groups| && OfEarlierTurn(groups, i)
  }

  lemma DroppableIff(groups: seq<Group>, i: nat, c: Config)
    requires i < |groups|
    ensures Droppable(groups, i, c) <==> OldEnough(groups, i, c)
  {
    var start := CurrentTurnStart(groups);
    if OfEarlierTurn(groups, i) {
      var j :| i < j < |groups| && groups[j].messages != [] && groups[j].messages[0].User?
               && groups[j].messages[0].source != Name("harness");
      assert OpensTurn(groups[j]);
    }
    if i < start {
      TurnStartOpens(groups);
    }
  }

  lemma {:induction false} TurnStartOpens(groups: seq<Group>)
    requires CurrentTurnStart(groups) > 0
    ensures CurrentTurnStart(groups) < |groups| && OpensTurn(groups[CurrentTurnStart(groups)])
  {
    if !OpensTurn(groups[|groups| - 1]) {
      TurnStartOpens(groups[..|groups| - 1]);
    }
  }

  // The messages the flags keep, in order.
  function Picked(messages: seq<Message>, keep: seq<bool>): seq<Message>
    requires |keep| == |messages|
  {
    if messages == [] then []
    else
      var n := |messages| - 1;
      Picked(messages[..n], keep[..n]) + if keep[n] then [messages[n]] else []
  }

  lemma {:induction false} DropHarnessPicks(messages: seq<Message>) returns (keep: seq<bool>)
    ensures |keep| == |messages| && DropHarness(messages) == Picked(messages, keep)
    ensures forall j :: 0 <= j < |messages| ==> (keep[j] <==> messages[j].source != Name("harness"))
  {
    if messages == [] {
      keep := [];
    } else {
      var n := |messages| - 1;
      var early := DropHarnessPicks(messages[..n]);
      keep := early + [messages[n].source != HARNESS];
      assert keep[..n] == early;
      forall j | 0 <= j < |messages| ensures keep[j] <==> messages[j].source != Name("harness") {
        if j < n { assert early[j] <==> messages[..n][j].source != Name("harness"); }
      }
    }
  }

  lemma {:induction false} PickedAll(messages: seq<Message>, keep: seq<bool>)
    requires |keep| == |messages| && forall j :: 0 <= j < |keep| ==> keep[j]
    ensures Picked(messages, keep) == messages
  {
    if messages != [] {
      var n := |messages| - 1;
      PickedAll(messages[..n], keep[..n]);
      assert messages == messages[..n] + [messages[n]];
    }
  }

  // A message is dropped if and only if it is the harness's and its block is older than both
  // bounds: than the newest groups and than the current turn. The others stay in order, each of
  // them shortened when truncation is on and its block is older than the newest groups, and
  // otherwise as it was.
  lemma WhatIsDropped(groups: seq<Group>, i: nat, c: Config, tk: Tokenizer) returns (keep: seq<bool>)
    requires i < |groups|
    ensures |keep| == |groups[i].messages|
    ensures forall j :: 0 <= j < |keep| ==>
              (!keep[j] <==> OldEnough(groups, i, c) && groups[i].messages[j].source == Name("harness"))
    ensures var kept, left := Picked(groups[i].messages, keep), PrunedMessages(groups, i, c, tk);
            && |left| == |kept|
            && forall j :: 0 <= j < |left| ==>
                 left[j] == if c.truncateToolOutputs && i + c.minKeepGroups < |groups|
                            then Shrink(kept[j], c.toolOutputMaxTokens, tk) else kept[j]
  {
    var messages := groups[i].messages;
    DroppableIff(groups, i, c);
    if OldEnough(groups, i, c) {
      keep := DropHarnessPicks(messages);
    } else {
      keep := seq(|messages|, _ => true);
      PickedAll(messages, keep);
    }
    hide Shrink, Droppable, OldEnough;
  }

  // In the current turn nothing is dropped.
  lemma CurrentTurnIsKept(groups: seq<Group>, i: nat, c: Config, tk: Tokenizer)
    requires i < |groups| && !OfEarlierTurn(groups, i)
    ensures |PrunedMessages(groups, i, c, tk)| == |groups[i].messages|
    ensures !c.truncateToolOutputs ==> PrunedMessages(groups, i, c, tk) == groups[i].messages
  {
    var keep := WhatIsDropped(groups, i, c, tk);
    PickedAll(groups[i].messages, keep);
  }

  // ---- What is shortened -----------------------------------------------------------------

  // A text within the cap is left alone; a longer one keeps what its first `cap` tokens decode
  // to, followed by a note of both sizes and a hint.
  ghost predicate Shortened(before: string, after: string, cap: nat, tk: Tokenizer, hint: string) {
    var tokens := tk.encode(before);
    if |tokens| <= cap then after == before
    else after == tk.decode(tokens[..cap]) + tk.note(|tokens|, cap) + hint
  }

  // A tool result keeps everything but a text that is too long. A multimodal one becomes its
  // text, with a hint even when that is short.
  lemma ResultIsShortened(m: Message, cap: nat, tk: Tokenizer)
    requires m.Tool?
    ensures var s, hint := Shrink(m, cap, tk), tk.resultHint(m.tool, m.success, m.error);
            && s == m.(text := s.text, multimodal := s.multimodal)
            && !s.multimodal
            && (!m.multimodal || |tk.encode(m.text)| > cap ==> Shortened(m.text, s.text, cap, tk, hint))
            && (m.multimodal && |tk.encode(m.text)| <= cap ==> s.text == m.text + hint)
  {
  }

  // A message of the assistant's keeps everything but text arguments that are too long; any
  // other message stays as it is.
  lemma ArgumentsAreShortened(m: Message, cap: nat, tk: Tokenizer)
    requires !m.Tool?
    ensures var s := Shrink(m, cap, tk);
            && (!m.Assistant? ==> s == m)
            && (m.Assistant? ==>
                  && s == m.(calls := s.calls) && |s.calls| == |m.calls|
                  && forall i :: 0 <= i < |m.calls| ==> OnlyLongTextCut(m.calls[i], s.calls[i], cap, tk))
  {
    if m.Assistant? {
      forall i | 0 <= i < |m.calls| ensures OnlyLongTextCut(m.calls[i], Shrink(m, cap, tk).calls[i], cap, tk) {
      }
    }
  }

  ghost predicate OnlyLongTextCut(before: Call, after: Call, cap: nat, tk: Tokenizer) {
    && after == before.(parameters := after.parameters)
    && after.parameters.Keys == before.parameters.Keys
    && forall key :: key in before.parameters ==>
         if before.parameters[key].Text?
         then after.parameters[key].Text?
              && Shortened(before.parameters[key].text, after.parameters[key].text, cap, tk, tk.argumentHint)
         else after.parameters[key] == before.parameters[key]
  }
}
