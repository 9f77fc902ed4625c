// Pruning and the compaction pipeline (max_ai/base/compaction.py).
module Compaction {
  import opened Common
  import opened Transcript
  import opened Groups
  import opened TokenBudget

  // The tokenizer, the wording left behind by a cut, and the size of a message are inputs of
  // the model.
  datatype Tokenizer = Tokenizer(
    encode: string -> seq<int>,
    decode: seq<int> -> string,
    note: (nat, nat) -> string,
    resultHint: (Name, bool, Option<string>) -> string,
    argumentHint: string,
    count: Message -> nat)

  datatype Config = Config(
    threshold: real, keepRatio: real, minKeepGroups: nat,
    truncateToolOutputs: bool, toolOutputMaxTokens: nat, dropHarnessMessages: bool)

  predicate ValidConfig(c: Config) {
    0.0 < c.keepRatio < c.threshold < 1.0 && c.minKeepGroups >= 1
  }

  // ---- Shrinking one message -------------------------------------------------------------

  function TruncateText(text: string, cap: nat, tk: Tokenizer): Option<string> {
    var tokens := tk.encode(text);
    if |tokens| <= cap then None else Some(tk.decode(tokens[..cap]) + tk.note(|tokens|, cap))
  }

  function ShrinkArgument(a: Argument, cap: nat, tk: Tokenizer): Argument {
    if a.Text? && TruncateText(a.text, cap, tk).Some?
    then Text(TruncateText(a.text, cap, tk).value + tk.argumentHint)
    else a
  }

  function ShrinkCall(c: Call, cap: nat, tk: Tokenizer): Call {
    c.(parameters := map key | key in c.parameters :: ShrinkArgument(c.parameters[key], cap, tk))
  }

  function Shrink(m: Message, cap: nat, tk: Tokenizer): Message {
    match m
    case Tool(_, text, _, tool, success, error, multimodal) =>
      var cut := TruncateText(text, cap, tk);
      if cut == None && !multimodal then m
      else m.(text := (if cut.Some? then cut.value else text) + tk.resultHint(tool, success, error),
              multimodal := false)
    case Assistant(_, _, calls) =>
      m.(calls := seq(|calls|, i requires 0 <= i < |calls| => ShrinkCall(calls[i], cap, tk)))
    case _ => m
  }

  // Roles, sources and call ids survive; only text and arguments get shorter.
  predicate SameShape(a: Message, b: Message) {
    && (a.Tool? <==> b.Tool?) && (a.Tool? ==> a.callId == b.callId && a.tool == b.tool && a.success == b.success)
    && a.source == b.source
    && CallIds(a) == CallIds(b)
  }

  lemma ShrinkKeepsShape(m: Message, cap: nat, tk: Tokenizer)
    ensures SameShape(m, Shrink(m, cap, tk))
  {
    if m.Assistant? {
      SameCallIds(m, Shrink(m, cap, tk));
    }
  }

  lemma SameCallIds(a: Message, b: Message)
    requires a.Assistant? && b.Assistant? && |a.calls| == |b.calls|
    requires forall i :: 0 <= i < |a.calls| ==> a.calls[i].id == b.calls[i].id
    ensures CallIds(a) == CallIds(b)
  {
    assert forall i :: 0 <= i < |a.calls| ==> a.calls[i] in a.calls && b.calls[i] in b.calls;
  }

  lemma {:induction false} SameShapesScanAlike(waiting: Option<set<Id>>, a: seq<Message>, b: seq<Message>)
    requires |a| == |b| && forall i :: 0 <= i < |a| ==> SameShape(a[i], b[i])
    ensures Scan(waiting, a) == Scan(waiting, b)
  {
    if a != [] {
      SameShapesScanAlike(waiting, a[..|a| - 1], b[..|b| - 1]);
    }
  }

  // ---- Pruning ---------------------------------------------------------------------------

  function DropHarness(messages: seq<Message>): seq<Message> {
    if messages == [] then []
    else DropHarness(messages[..|messages| - 1]) +
         if messages[|messages| - 1].source != HARNESS then [messages[|messages| - 1]] else []
  }

  function ShrinkAll(messages: seq<Message>, cap: nat, tk: Tokenizer): seq<Message> {
    seq(|messages|, i requires 0 <= i < |messages| => Shrink(messages[i], cap, tk))
  }

  predicate Unprotected(groups: seq<Group>, index: nat, c: Config) {
    index < |groups| - c.minKeepGroups
  }

  // A block of an earlier turn, old enough to lose its harness messages.
  predicate Droppable(groups: seq<Group>, index: nat, c: Config) {
    Unprotected(groups, index, c) && c.dropHarnessMessages && index < CurrentTurnStart(groups)
  }

  // What is left of one block.
  function PrunedMessages(groups: seq<Group>, index: nat, c: Config, tk: Tokenizer): seq<Message>
    requires index < |groups|
  {
    var messages := groups[index].messages;
    if !Unprotected(groups, index, c) then messages
    else
      var kept := if Droppable(groups, index, c) then DropHarness(messages) else messages;
      if c.truncateToolOutputs then ShrinkAll(kept, c.toolOutputMaxTokens, tk) else kept
  }

  // What is left of the first `n` blocks.
  function PrunedUpTo(groups: seq<Group>, n: nat, c: Config, tk: Tokenizer): seq<Message>
    requires n <= |groups|
  {
    if n == 0 then [] else PrunedUpTo(groups, n - 1, c, tk) + PrunedMessages(groups, n - 1, c, tk)
  }

  ghost predicate Counted(groups: seq<Group>, tk: Tokenizer) {
    forall g :: g in groups ==> g.messages != [] && g.tokens == CountMessages(tk.count, g.messages)
  }

  // The group left of one block: none when nothing is left, the block itself when all is.
  function PrunedGroup(groups: seq<Group>, index: nat, c: Config, tk: Tokenizer): seq<Group>
    requires index < |groups|
  {
    var messages := PrunedMessages(groups, index, c, tk);
    if messages == [] then []
    else if messages == groups[index].messages then [groups[index]]
    else [Group(messages, CountMessages(tk.count, messages))]
  }

  function PrunedGroups(groups: seq<Group>, n: nat, c: Config, tk: Tokenizer): seq<Group>
    requires n <= |groups|
  {
    if n == 0 then [] else PrunedGroups(groups, n - 1, c, tk) + PrunedGroup(groups, n - 1, c, tk)
  }

  // Each group left is what pruning left of one block.
  ghost predicate FromBlocks(pruned: seq<Group>, groups: seq<Group>, c: Config, tk: Tokenizer) {
    forall g :: g in pruned ==> exists i :: 0 <= i < |groups| && g.messages == PrunedMessages(groups, i, c, tk)
  }

  method Prune(groups: seq<Group>, c: Config, tk: Tokenizer) returns (pruned: seq<Group>)
    ensures pruned == PrunedGroups(groups, |groups|, c, tk)
  {
    var turnStart := CurrentTurnStart(groups);
    pruned := [];
    var index := 0;
    while index < |groups|
      invariant 0 <= index <= |groups|
      invariant pruned == PrunedGroups(groups, index, c, tk)
    {
      var left := PruneBlock(groups, index, turnStart, c, tk);
      pruned := pruned + left;
      index := index + 1;
    }
  }

  method PruneBlock(groups: seq<Group>, index: nat, turnStart: nat, c: Config, tk: Tokenizer)
    returns (left: seq<Group>)
    requires index < |groups| && turnStart == CurrentTurnStart(groups)
    ensures left == PrunedGroup(groups, index, c, tk)
  {
    var messages := groups[index].messages;
    if index < |groups| - c.minKeepGroups {
      if c.dropHarnessMessages && index < turnStart {
        messages := DropHarness(messages);
      }
      if c.truncateToolOutputs {
        messages := ShrinkAll(messages, c.toolOutputMaxTokens, tk);
      }
    }
    if messages == [] { return []; }
    left := [if messages == groups[index].messages then groups[index]
             else Group(messages, CountMessages(tk.count, messages))];
  }

  // The pruned groups are not empty, have the right sizes, come from one block each, and put
  // end to end they are what is left of the blocks.
  lemma {:induction false} PrunedGroupsConcatenate(groups: seq<Group>, n: nat, c: Config, tk: Tokenizer)
    requires n <= |groups| && Counted(groups, tk)
    ensures Messages(PrunedGroups(groups, n, c, tk)) == PrunedUpTo(groups, n, c, tk)
    ensures Counted(PrunedGroups(groups, n, c, tk), tk) && FromBlocks(PrunedGroups(groups, n, c, tk), groups, c, tk)
  {
    hide PrunedMessages, PrunedGroup, Messages, Counted, FromBlocks;
    NothingLeft(groups, c, tk);
    if n > 0 {
      PrunedGroupsConcatenate(groups, n - 1, c, tk);
      PrunedGroupIsLeft(groups, n - 1, c, tk);
      var early, left := PrunedGroups(groups, n - 1, c, tk), PrunedGroup(groups, n - 1, c, tk);
      MessagesConcat(early, left);
      BothParts(early, left, groups, c, tk);
    }
  }

  lemma PrunedGroupIsLeft(groups: seq<Group>, index: nat, c: Config, tk: Tokenizer)
    requires index < |groups| && Counted(groups, tk)
    ensures var left := PrunedGroup(groups, index, c, tk);
            && Messages(left) == PrunedMessages(groups, index, c, tk)
            && Counted(left, tk) && FromBlocks(left, groups, c, tk)
  {
    hide PrunedMessages, Messages;
    assert groups[index] in groups;
    var left := PrunedGroup(groups, index, c, tk);
    if left == [] { NoGroups(); } else { OneGroup(left[0]); }
  }

  lemma NothingLeft(groups: seq<Group>, c: Config, tk: Tokenizer)
    ensures Messages([]) == [] && Counted([], tk) && FromBlocks([], groups, c, tk)
  {
  }

  lemma BothParts(a: seq<Group>, b: seq<Group>, groups: seq<Group>, c: Config, tk: Tokenizer)
    requires Counted(a, tk) && Counted(b, tk) && FromBlocks(a, groups, c, tk) && FromBlocks(b, groups, c, tk)
    ensures Counted(a + b, tk) && FromBlocks(a + b, groups, c, tk)
  {
    hide PrunedMessages;
  }

  lemma NoGroups()
    ensures Messages([]) == []
  {
  }

  lemma OneGroup(g: Group)
    ensures Messages([g]) == g.messages
  {
    assert [g][1..] == [] && [g.messages][1..] == [];
    assert BlocksOf([g]) == [g.messages];
    assert Flatten([g.messages]) == g.messages + Flatten([]);
  }

  // A block that would lose some of its messages but not all of them.
  predicate Mixed(messages: seq<Message>) {
    (exists m :: m in messages && m.source == HARNESS) && (exists m :: m in messages && m.source != HARNESS)
  }

  lemma {:induction false} DropHarnessMembers(messages: seq<Message>)
    ensures forall m :: m in DropHarness(messages) <==> m in messages && m.source != HARNESS
  {
    if messages != [] {
      var n := |messages| - 1;
      DropHarnessMembers(messages[..n]);
      assert messages == messages[..n] + [messages[n]];
    }
  }

  lemma {:induction false} NothingToDrop(messages: seq<Message>)
    requires forall m :: m in messages ==> m.source != HARNESS
    ensures DropHarness(messages) == messages
  {
    if messages != [] {
      var front, last := messages[..|messages| - 1], messages[|messages| - 1];
      NothingToDrop(front);
      assert last in messages;
      assert DropHarness(messages) == DropHarness(front) + [last];
      hide DropHarness;
      assert messages == front + [last];
    }
  }

  lemma {:induction false} DropHarnessResults(messages: seq<Message>)
    requires AllResults(messages)
    ensures AllResults(DropHarness(messages))
  {
    if messages != [] { DropHarnessResults(messages[..|messages| - 1]); }
  }

  lemma PrunedShape(groups: seq<Group>, index: nat, c: Config, tk: Tokenizer, waiting: Option<set<Id>>)
    requires index < |groups|
    ensures var messages := groups[index].messages;
            var kept := if Droppable(groups, index, c) then DropHarness(messages) else messages;
            && |PrunedMessages(groups, index, c, tk)| == |kept|
            && (forall i :: 0 <= i < |kept| ==> SameShape(kept[i], PrunedMessages(groups, index, c, tk)[i]))
            && Scan(waiting, PrunedMessages(groups, index, c, tk)) == Scan(waiting, kept)
  {
    var kept := if Droppable(groups, index, c) then DropHarness(groups[index].messages) else groups[index].messages;
    var p := PrunedMessages(groups, index, c, tk);
    forall i | 0 <= i < |kept| ensures SameShape(kept[i], p[i]) {
      ShrinkKeepsShape(kept[i], c.toolOutputMaxTokens, tk);
    }
    SameShapesScanAlike(waiting, kept, p);
  }

  ghost predicate NoMixedBlock(groups: seq<Group>, n: nat, c: Config)
    requires n <= |groups|
  {
    forall i :: 0 <= i < n && Droppable(groups, i, c) ==> !Mixed(groups[i].messages)
  }

  // Pruning keeps an accepted transcript accepted when every droppable block is dropped whole
  // or kept whole; in particular when no tool result and no calling assistant has the harness
  // as its source.
  lemma {:induction false} PruneKeepsAcceptance(groups: seq<Group>, n: nat, c: Config, tk: Tokenizer)
    requires n <= |groups|
    requires forall i :: 0 <= i < n ==> Accepted(groups[i].messages)
    requires NoMixedBlock(groups, n, c)
    ensures Accepted(PrunedUpTo(groups, n, c, tk))
  {
    hide Accepted, Droppable, Mixed, PrunedMessages;
    if n == 0 {
      NothingIsAccepted();
    } else {
      PruneKeepsAcceptance(groups, n - 1, c, tk);
      var before, last := PrunedUpTo(groups, n - 1, c, tk), PrunedMessages(groups, n - 1, c, tk);
      assert Accepted(last) by { WholeBlockStaysAccepted(groups, n - 1, c, tk); }
      AcceptedConcat(before, last);
    }
  }

  lemma NothingIsAccepted()
    ensures Accepted([])
  {
  }

  // A strategy is handed the pruned groups. Whichever of them it keeps, the window is accepted,
  // so a strategy that only drops whole groups can never be refused.
  lemma {:induction false} AnyChoiceAfterPruningIsAccepted(
    groups: seq<Group>, messages: seq<Message>, c: Config, tk: Tokenizer, pruned: seq<Group>, keep: seq<bool>)
    requires Cuts(groups, messages, 0, tk.count) && Accepted(messages) && NoMixedBlock(groups, |groups|, c)
    requires FromBlocks(pruned, groups, c, tk) && |keep| == |pruned|
    ensures Accepted(Messages(Chosen(pruned, keep)))
  {
    assert messages[0..] == messages;
    BlocksAreWellFormed(groups, messages, 0, tk.count);
    ChosenAreBlocks(pruned, keep);
    forall g | g in Chosen(pruned, keep) ensures Accepted(g.messages) {
      var i :| 0 <= i < |groups| && g.messages == PrunedMessages(groups, i, c, tk);
      assert groups[i] in groups;
      WholeBlockStaysAccepted(groups, i, c, tk);
    }
    AcceptedGroups(Chosen(pruned, keep));
  }

  lemma WholeBlockStaysAccepted(groups: seq<Group>, index: nat, c: Config, tk: Tokenizer)
    requires index < |groups| && Accepted(groups[index].messages)
    requires Droppable(groups, index, c) ==> !Mixed(groups[index].messages)
    ensures Accepted(PrunedMessages(groups, index, c, tk))
  {
    PrunedShape(groups, index, c, tk, Some({}));
    if Droppable(groups, index, c) {
      DropHarnessWhole(groups[index].messages);
    }
  }

  lemma DropHarnessWhole(messages: seq<Message>)
    requires !Mixed(messages)
    ensures DropHarness(messages) == [] || DropHarness(messages) == messages
  {
    DropHarnessMembers(messages);
    var kept := DropHarness(messages);
    if kept != [] {
      assert kept[0] in kept;
      NothingToDrop(messages);
    }
  }

  // ---- The other direction: a mixed block breaks the window ------------------------------

  // Call ids are unique over the transcript (the loop renames repeated ones).
  ghost predicate UniqueCallIds(groups: seq<Group>) {
    forall i, j :: 0 <= i < j < |groups| && groups[i].messages != [] && groups[j].messages != [] ==>
      CallIds(groups[i].messages[0]) !! CallIds(groups[j].messages[0])
  }

  // Rejected already, or still waiting for some of `calls`.
  ghost predicate Stuck(waiting: Option<set<Id>>, calls: set<Id>) {
    waiting == None || (waiting.value != {} && waiting.value <= calls)
  }

  lemma MixedBlockGetsStuck(block: seq<Message>)
    requires WellFormedBlock(block) && Mixed(block)
    ensures Stuck(Scan(Some({}), DropHarness(block)), CallIds(block[0]))
  {
    var m :| m in block && m.source == HARNESS;
    var n :| n in block && n.source != HARNESS;
    assert block == [block[0]] + block[1..];
    DropHarnessCons(block[0], block[1..]);
    if block[0].source == HARNESS {
      assert n in block[1..];
      OrphansAreRejected(block[1..], n);
      assert DropHarness(block) == DropHarness(block[1..]);
    } else {
      assert m in block[1..];
      assert DropHarness(block) == [block[0]] + DropHarness(block[1..]);
      LostResultLeavesCallOpen(block[0], block[1..], m);
    }
  }

  // The caller is dropped and one of its results is kept.
  lemma OrphansAreRejected(results: seq<Message>, n: Message)
    requires AllResults(results) && n in results && n.source != HARNESS
    ensures Scan(Some({}), DropHarness(results)) == None
  {
    DropHarnessMembers(results);
    DropHarnessResults(results);
    var kept := DropHarness(results);
    assert n in kept;
    assert kept == [kept[0]] + kept[1..];
    ScanCons(Some({}), kept[0], kept[1..]);
    RejectedStays(kept[1..]);
  }

  // The caller is kept and one of its results is dropped.
  lemma LostResultLeavesCallOpen(caller: Message, results: seq<Message>, m: Message)
    requires !caller.Tool? && AllResults(results) && DistinctIds(results) && ResultIds(results) == CallIds(caller)
    requires m in results && m.source == HARNESS
    ensures Stuck(Scan(Some({}), [caller] + DropHarness(results)), CallIds(caller))
  {
    var kept, calls := DropHarness(results), CallIds(caller);
    assert AllResults(kept) by { DropHarnessResults(results); }
    assert m.callId in calls && m.callId !in ResultIds(kept) by { DroppedIdStaysOpen(results, m); }
    assert Scan(Some({}), [caller] + kept) == Scan(Some(calls), kept) by { ScanCons(Some({}), caller, kept); }
    ScanResults(calls, kept);
    assert m.callId in calls - ResultIds(kept);
  }

  lemma {:induction false} DropHarnessCons(first: Message, rest: seq<Message>)
    ensures DropHarness([first] + rest) == (if first.source != HARNESS then [first] else []) + DropHarness(rest)
  {
    var all := [first] + rest;
    if rest == [] {
      assert all[..0] == [];
    } else {
      assert all[..|all| - 1] == [first] + rest[..|rest| - 1];
      DropHarnessCons(first, rest[..|rest| - 1]);
    }
  }

  lemma DroppedIdStaysOpen(results: seq<Message>, m: Message)
    requires AllResults(results) && DistinctIds(results) && m in results && m.source == HARNESS
    ensures m.callId in ResultIds(results) && m.callId !in ResultIds(DropHarness(results))
  {
    DropHarnessMembers(results);
    DropHarnessResults(results);
    var k :| 0 <= k < |results| && results[k] == m;
    var kept := DropHarness(results);
    forall i | 0 <= i < |kept| ensures kept[i].callId != m.callId {
      assert kept[i] in results;
      var j :| 0 <= j < |results| && results[j] == kept[i];
      assert j != k;
    }
  }

  // Once stuck on the calls of one block, no later block of the transcript can unstick it.
  lemma StaysStuck(block: seq<Message>, kept: seq<Message>, calls: set<Id>, waiting: Option<set<Id>>)
    requires WellFormedBlock(block) && CallIds(block[0]) !! calls
    requires kept == block || kept == DropHarness(block)
    requires Stuck(waiting, calls)
    ensures Stuck(Scan(waiting, kept), calls)
  {
    if kept != [] {
      DropHarnessMembers(block);
      assert kept[0] in kept;
      assert kept[0] in block;
      if kept[0].Tool? {
        var i :| 0 <= i < |block| && block[i] == kept[0];
        assert block[1..][i - 1] == kept[0];
        assert kept[0].callId in ResultIds(block[1..]);
      }
      assert Read(waiting, kept[0]) == None;
      assert kept == [kept[0]] + kept[1..];
      ScanCons(waiting, kept[0], kept[1..]);
      RejectedStays(kept[1..]);
    }
  }

  lemma PrunedScan(groups: seq<Group>, n: nat, c: Config, tk: Tokenizer)
    requires n < |groups|
    ensures var kept := if Droppable(groups, n, c) then DropHarness(groups[n].messages) else groups[n].messages;
            Scan(Some({}), PrunedUpTo(groups, n + 1, c, tk)) == Scan(Scan(Some({}), PrunedUpTo(groups, n, c, tk)), kept)
  {
    hide Droppable, Scan, PrunedMessages, DropHarness;
    var before := PrunedUpTo(groups, n, c, tk);
    ScanConcat(Some({}), before, PrunedMessages(groups, n, c, tk));
    PrunedShape(groups, n, c, tk, Scan(Some({}), before));
  }

  lemma FirstMixedBlockSticks(groups: seq<Group>, k: nat, c: Config, tk: Tokenizer)
    requires k < |groups|
    requires forall i :: 0 <= i < |groups| ==> WellFormedBlock(groups[i].messages) && Accepted(groups[i].messages)
    requires NoMixedBlock(groups, k, c) && Droppable(groups, k, c) && Mixed(groups[k].messages)
    ensures Stuck(Scan(Some({}), PrunedUpTo(groups, k + 1, c, tk)), CallIds(groups[k].messages[0]))
  {
    hide Stuck, Mixed, Droppable, NoMixedBlock, Scan;
    PruneKeepsAcceptance(groups, k, c, tk);
    PrunedScan(groups, k, c, tk);
    MixedBlockGetsStuck(groups[k].messages);
  }

  lemma LaterBlockStaysStuck(groups: seq<Group>, k: nat, n: nat, c: Config, tk: Tokenizer)
    requires k < n < |groups| && UniqueCallIds(groups)
    requires WellFormedBlock(groups[k].messages) && WellFormedBlock(groups[n].messages)
    requires Stuck(Scan(Some({}), PrunedUpTo(groups, n, c, tk)), CallIds(groups[k].messages[0]))
    ensures Stuck(Scan(Some({}), PrunedUpTo(groups, n + 1, c, tk)), CallIds(groups[k].messages[0]))
  {
    hide Stuck, Droppable, Scan, DropHarness, PrunedUpTo;
    var block := groups[n].messages;
    PrunedScan(groups, n, c, tk);
    StaysStuck(block, if Droppable(groups, n, c) then DropHarness(block) else block, CallIds(groups[k].messages[0]),
               Scan(Some({}), PrunedUpTo(groups, n, c, tk)));
  }

  lemma {:induction false} MixedBlockIsFatal(groups: seq<Group>, k: nat, n: nat, c: Config, tk: Tokenizer)
    requires k < n <= |groups| && UniqueCallIds(groups)
    requires forall i :: 0 <= i < |groups| ==> WellFormedBlock(groups[i].messages) && Accepted(groups[i].messages)
    requires NoMixedBlock(groups, k, c) && Droppable(groups, k, c) && Mixed(groups[k].messages)
    ensures Stuck(Scan(Some({}), PrunedUpTo(groups, n, c, tk)), CallIds(groups[k].messages[0]))
  {
    hide Stuck, Droppable, Mixed, NoMixedBlock, UniqueCallIds, Scan, PrunedUpTo;
    if n == k + 1 {
      FirstMixedBlockSticks(groups, k, c, tk);
    } else {
      MixedBlockIsFatal(groups, k, n - 1, c, tk);
      LaterBlockStaysStuck(groups, k, n - 1, c, tk);
    }
  }

  // The exact condition under which pruning an accepted transcript keeps it acceptable.
  lemma PruneAcceptedIff(groups: seq<Group>, messages: seq<Message>, c: Config, tk: Tokenizer)
    requires Cuts(groups, messages, 0, tk.count) && Accepted(messages) && UniqueCallIds(groups)
    ensures Accepted(PrunedUpTo(groups, |groups|, c, tk)) <==> NoMixedBlock(groups, |groups|, c)
  {
    assert messages[0..] == messages;
    BlocksAreWellFormed(groups, messages, 0, tk.count);
    assert forall i :: 0 <= i < |groups| ==> groups[i] in groups;
    if NoMixedBlock(groups, |groups|, c) {
      PruneKeepsAcceptance(groups, |groups|, c, tk);
    } else {
      var k := FirstMixed(groups, |groups|, c);
      MixedBlockIsFatal(groups, k, |groups|, c, tk);
    }
  }

  // A transcript that pruning breaks: in an earlier turn the model called a tool named
  // "harness", which does not even have to exist, and the answer carries that name as its source.
  const EARLIER_CALL := Call(Id("1"), HARNESS, map[])
  const EARLIER_BLOCK := [Assistant(Name("llm"), "", [EARLIER_CALL]),
                          Tool(HARNESS, "Unknown tool", Id("1"), HARNESS, false, None, false)]
  const ASKED := [User(Name("user"), "hi")]
  const ASKED_AGAIN := [User(Name("user"), "and now?")]
  const REPLIED := [Assistant(Name("llm"), "done", [])]

  // The trailing blocks are kept as they are; two of them cover the default setting.
  lemma HarnessNamedToolBreaksWindow(c: Config, tk: Tokenizer)
    requires c.dropHarnessMessages && 1 <= c.minKeepGroups <= 2
    ensures var messages := ASKED + EARLIER_BLOCK + ASKED_AGAIN + REPLIED;
            var groups := EarlierGroups(tk.count);
            && Cuts(groups, messages, 0, tk.count) && Accepted(messages)
            && !Accepted(PrunedUpTo(groups, 4, c, tk))
  {
    var messages := ASKED + EARLIER_BLOCK + ASKED_AGAIN + REPLIED;
    var groups := EarlierGroups(tk.count);
    EarlierCallIsAnswered();
    EarlierTranscriptCuts(tk.count);
    assert OpensTurn(groups[2]) && !OpensTurn(groups[3]);
    assert CurrentTurnStart(groups) == 2;
    assert Droppable(groups, 1, c);
    assert EARLIER_BLOCK[0] in EARLIER_BLOCK && EARLIER_BLOCK[1] in EARLIER_BLOCK && Mixed(EARLIER_BLOCK);
    assert CallIds(REPLIED[0]) == {};
    PruneAcceptedIff(groups, messages, c, tk);
  }

  function EarlierGroups(count: Message -> nat): seq<Group> {
    [Group(ASKED, CountMessages(count, ASKED)), Group(EARLIER_BLOCK, CountMessages(count, EARLIER_BLOCK)),
     Group(ASKED_AGAIN, CountMessages(count, ASKED_AGAIN)), Group(REPLIED, CountMessages(count, REPLIED))]
  }

  lemma EarlierCallIsAnswered()
    ensures CallIds(EARLIER_BLOCK[0]) == {Id("1")} && Accepted(ASKED + EARLIER_BLOCK + ASKED_AGAIN + REPLIED)
  {
    var caller, answer := EARLIER_BLOCK[0], EARLIER_BLOCK[1];
    assert EARLIER_CALL in caller.calls;
    assert EARLIER_BLOCK == [caller] + [answer];
    assert [caller][..0] == [] && [answer][..0] == [] && ASKED[..0] == [] && ASKED_AGAIN[..0] == [] == REPLIED[..0];
    ScanConcat(Some({}), [caller], [answer]);
    assert CallIds(caller) == {Id("1")} && {Id("1")} - {Id("1")} == {};
    assert Scan(Some({}), [caller]) == Some({Id("1")});
    assert Scan(Some({Id("1")}), [answer]) == Some({});
    assert CallIds(REPLIED[0]) == {};
    AcceptedConcat(ASKED, EARLIER_BLOCK);
    AcceptedConcat(ASKED + EARLIER_BLOCK, ASKED_AGAIN);
    AcceptedConcat(ASKED + EARLIER_BLOCK + ASKED_AGAIN, REPLIED);
  }

  lemma EarlierTranscriptCuts(count: Message -> nat)
    requires CallIds(EARLIER_BLOCK[0]) == {Id("1")}
    ensures Cuts(EarlierGroups(count), ASKED + EARLIER_BLOCK + ASKED_AGAIN + REPLIED, 0, count)
  {
    var groups, messages := EarlierGroups(count), ASKED + EARLIER_BLOCK + ASKED_AGAIN + REPLIED;
    assert Following(messages, 3, {Id("1")}) == 0;
    assert CallIds(REPLIED[0]) == {};
    assert BlockLength(messages, 0) == 1 && BlockLength(messages, 1) == 2;
    assert BlockLength(messages, 3) == 1 && BlockLength(messages, 4) == 1;
    assert messages[0..1] == ASKED && messages[1..3] == EARLIER_BLOCK;
    assert messages[3..4] == ASKED_AGAIN && messages[4..5] == REPLIED;
    assert groups[1..][1..][1..][1..] == [];
    assert Covers(groups[1..][1..][1..][1..], messages, 5, 5, count);
    assert Covers(groups[1..][1..][1..], messages, 4, 5, count);
    assert Covers(groups[1..][1..], messages, 3, 5, count);
    assert Covers(groups[1..], messages, 1, 5, count);
  }

  lemma {:induction false} FirstMixed(groups: seq<Group>, n: nat, c: Config) returns (k: nat)
    requires n <= |groups| && !NoMixedBlock(groups, n, c)
    ensures k < n && NoMixedBlock(groups, k, c) && Droppable(groups, k, c) && Mixed(groups[k].messages)
  {
    if NoMixedBlock(groups, n - 1, c) {
      k := n - 1;
    } else {
      k := FirstMixed(groups, n - 1, c);
    }
  }

  // ---- The pipeline ----------------------------------------------------------------------

  datatype Window = Window(maxContext: int, maxOutput: int, promptTokens: Option<int>, settings: Settings)

  function CapacityOf(w: Window): nat {
    Capacity(w.maxContext, w.maxOutput, w.promptTokens, w.settings)
  }

  // The check the loop runs before every model call.
  method ShouldCompact(messages: seq<Message>, history: nat, c: Config, tk: Tokenizer, w: Window) returns (over: bool)
    requires ValidConfig(c)
    ensures over <==> OverLimit(history + CountMessages(tk.count, messages), Share(CapacityOf(w), c.threshold))
  {
    var blocks := GroupAtomicMessages(messages, tk.count);
    GroupsConcatenate(blocks, messages, 0, tk.count);
    assert messages[0..] == messages;
    over := OverLimit(history + TotalTokens(blocks), Share(CapacityOf(w), c.threshold));
  }

  datatype Compacted = Unchanged | PrunedOnly(messages: seq<Message>) | Rewritten(messages: seq<Message>)

  // What a compaction comes to, given the blocks of the transcript: nothing while calls are
  // pending; the pruned transcript when that is under the limit; and otherwise whatever the
  // strategy makes of the pruned groups and its budget, provided it is acceptable.
  ghost predicate Outcome(
    blocks: seq<Group>, history: nat, allConsumed: bool, c: Config, tk: Tokenizer, w: Window,
    strategy: (seq<Group>, nat) -> seq<Message>, result: Result<Compacted, WindowError>)
    requires ValidConfig(c)
  {
    var pruned := PrunedGroups(blocks, |blocks|, c, tk);
    var window := strategy(pruned, StrategyBudget(CapacityOf(w), c.keepRatio, history));
    if !allConsumed then result == Ok(Unchanged)
    else if Quiet(history, CountMessages(tk.count, Messages(pruned)), Share(CapacityOf(w), c.threshold))
    then result == Ok(PrunedOnly(Messages(pruned)))
    else if Accepted(window) then result == Ok(Rewritten(window))
    else result.Err?
  }

  // A strategy sees whole groups and a budget; what it returns is validated before use.
  method Compact(
    messages: seq<Message>, history: nat, allConsumed: bool, c: Config, tk: Tokenizer, w: Window,
    strategy: (seq<Group>, nat) -> seq<Message>)
    returns (result: Result<Compacted, WindowError>)
    requires ValidConfig(c)
    ensures Outcome(GroupsOf(messages, 0, tk.count), history, allConsumed, c, tk, w, strategy, result)
  {
    if !allConsumed { return Ok(Unchanged); }
    var grouped := GroupAtomicMessages(messages, tk.count);
    CutsIff(grouped, messages, 0, tk.count);
    var threshold := Share(CapacityOf(w), c.threshold);
    var budget := StrategyBudget(CapacityOf(w), c.keepRatio, history);
    var prunedBlocks := Prune(grouped, c, tk);
    var pruned := Messages(prunedBlocks);
    if !OverLimit(history + CountMessages(tk.count, pruned), threshold) {
      return Ok(PrunedOnly(pruned));
    }
    var window := strategy(prunedBlocks, budget);
    var checked := Validate(window);
    if checked.Err? { return Err(checked.error); }
    result := Ok(Rewritten(window));
  }

  // What a compaction returns is acceptable: always when the strategy rewrote it, and under the
  // exact condition for pruning when it was only pruned.
  lemma CompactedIsAccepted(
    messages: seq<Message>, history: nat, c: Config, tk: Tokenizer, w: Window,
    strategy: (seq<Group>, nat) -> seq<Message>, result: Result<Compacted, WindowError>)
    requires ValidConfig(c) && Accepted(messages)
    requires Outcome(GroupsOf(messages, 0, tk.count), history, true, c, tk, w, strategy, result)
    requires UniqueCallIds(GroupsOf(messages, 0, tk.count))
    ensures result.Ok? && result.value.Rewritten? ==> Accepted(result.value.messages)
    ensures result.Ok? && result.value.PrunedOnly? ==>
              var blocks := GroupsOf(messages, 0, tk.count);
              Accepted(result.value.messages) <==> NoMixedBlock(blocks, |blocks|, c)
  {
    var blocks := GroupsOf(messages, 0, tk.count);
    CutsIff(blocks, messages, 0, tk.count);
    CutGroupsCounted(blocks, messages, 0, tk.count);
    PrunedGroupsConcatenate(blocks, |blocks|, c, tk);
    PruneAcceptedIff(blocks, messages, c, tk);
  }

  // And it leaves nothing to do for the next check, if the strategy keeps to its budget and the
  // history alone is within the threshold.
  lemma CompactedIsQuiet(
    messages: seq<Message>, history: nat, c: Config, tk: Tokenizer, w: Window,
    strategy: (seq<Group>, nat) -> seq<Message>, result: Result<Compacted, WindowError>)
    requires ValidConfig(c) && Outcome(GroupsOf(messages, 0, tk.count), history, true, c, tk, w, strategy, result)
    requires WithinBudget(strategy, tk) && history <= Share(CapacityOf(w), c.threshold)
    ensures result.Ok? ==>
              !result.value.Unchanged?
              && Quiet(history, CountMessages(tk.count, result.value.messages), Share(CapacityOf(w), c.threshold))
  {
    NoThrashIff(CapacityOf(w), history, c.keepRatio, c.threshold);
  }

  // The strategy only drops whole groups.
  ghost predicate Drops(strategy: (seq<Group>, nat) -> seq<Message>) {
    forall groups, budget :: exists keep: seq<bool> ::
      |keep| == |groups| && strategy(groups, budget) == Messages(Chosen(groups, keep))
  }

  // With such a strategy a compaction of an accepted transcript without mixed blocks never
  // fails, and what it returns is accepted.
  lemma DroppingNeverFails(
    messages: seq<Message>, history: nat, c: Config, tk: Tokenizer, w: Window,
    strategy: (seq<Group>, nat) -> seq<Message>, result: Result<Compacted, WindowError>)
    requires ValidConfig(c) && Accepted(messages)
    requires NoMixedBlock(GroupsOf(messages, 0, tk.count), |GroupsOf(messages, 0, tk.count)|, c) && Drops(strategy)
    requires Outcome(GroupsOf(messages, 0, tk.count), history, true, c, tk, w, strategy, result)
    ensures result.Ok? && !result.value.Unchanged? && Accepted(result.value.messages)
  {
    var blocks := GroupsOf(messages, 0, tk.count);
    CutsIff(blocks, messages, 0, tk.count);
    hide PrunedMessages, Accepted, NoMixedBlock;
    var pruned := PrunedGroups(blocks, |blocks|, c, tk);
    var budget := StrategyBudget(CapacityOf(w), c.keepRatio, history);
    CutGroupsCounted(blocks, messages, 0, tk.count);
    PrunedGroupsConcatenate(blocks, |blocks|, c, tk);
    PrunedTranscriptAccepted(blocks, messages, c, tk);
    var keep: seq<bool> :| |keep| == |pruned| && strategy(pruned, budget) == Messages(Chosen(pruned, keep));
    AnyChoiceAfterPruningIsAccepted(blocks, messages, c, tk, pruned, keep);
  }

  // The strategy never returns more than it was given room for.
  ghost predicate WithinBudget(strategy: (seq<Group>, nat) -> seq<Message>, tk: Tokenizer) {
    forall groups, budget :: CountMessages(tk.count, strategy(groups, budget)) <= budget
  }

  lemma PrunedTranscriptAccepted(groups: seq<Group>, messages: seq<Message>, c: Config, tk: Tokenizer)
    requires Cuts(groups, messages, 0, tk.count)
    ensures Accepted(messages) && NoMixedBlock(groups, |groups|, c) ==> Accepted(PrunedUpTo(groups, |groups|, c, tk))
  {
    if Accepted(messages) && NoMixedBlock(groups, |groups|, c) {
      assert messages[0..] == messages;
      BlocksAreWellFormed(groups, messages, 0, tk.count);
      assert forall i :: 0 <= i < |groups| ==> groups[i] in groups;
      PruneKeepsAcceptance(groups, |groups|, c, tk);
    }
  }

  lemma {:induction false} CutGroupsCounted(
    groups: seq<Group>, messages: seq<Message>, from: nat, count: Message -> nat)
    requires from <= |messages| && Cuts(groups, messages, from, count)
    ensures forall g :: g in groups ==> g.messages != [] && g.tokens == CountMessages(count, g.messages)
    decreases |groups|
  {
    if groups != [] {
      CutGroupsCounted(groups[1..], messages, from + BlockLength(messages, from), count);
    }
  }
}
