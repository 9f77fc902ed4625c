// Atomic message blocks (max_ai/core/compaction/groups.py).
module Groups {
  import opened Common
  import opened Transcript

  // `tokens` is the block's size as the token counter sees it.
  datatype Group = Group(messages: seq<Message>, tokens: nat)

  function CountMessages(count: Message -> nat, messages: seq<Message>): nat {
    if messages == [] then 0
    else CountMessages(count, messages[..|messages| - 1]) + count(messages[|messages| - 1])
  }

  function BlocksOf(groups: seq<Group>): seq<seq<Message>> {
    if groups == [] then [] else [groups[0].messages] + BlocksOf(groups[1..])
  }

  function Messages(groups: seq<Group>): seq<Message> {
    Flatten(BlocksOf(groups))
  }

  function TotalTokens(groups: seq<Group>): nat {
    if groups == [] then 0 else groups[0].tokens + TotalTokens(groups[1..])
  }

  // ---- Grouping --------------------------------------------------------------------------

  // How many results of `ids` follow position `i` without a break.
  function Following(messages: seq<Message>, i: nat, ids: set<Id>): (n: nat)
    requires i <= |messages|
    ensures i + n <= |messages|
    ensures forall k :: i <= k < i + n ==> messages[k].Tool? && messages[k].callId in ids
    ensures i + n < |messages| ==> !(messages[i + n].Tool? && messages[i + n].callId in ids)
    decreases |messages| - i
  {
    if i < |messages| && messages[i].Tool? && messages[i].callId in ids then 1 + Following(messages, i + 1, ids) else 0
  }

  // The length of the block that opens at `i`.
  function BlockLength(messages: seq<Message>, i: nat): (n: nat)
    requires i < |messages|
    ensures 1 <= n <= |messages| - i
  {
    1 + Following(messages, i + 1, CallIds(messages[i]))
  }

  // The groups cover messages[from..to], and each is a whole block of the transcript.
  ghost predicate Covers(groups: seq<Group>, messages: seq<Message>, from: nat, to: nat, count: Message -> nat)
    requires from <= to <= |messages|
    decreases |groups|
  {
    if groups == [] then from == to
    else
      && from < to && from + BlockLength(messages, from) <= to
      && groups[0].messages == messages[from..from + BlockLength(messages, from)]
      && groups[0].tokens == CountMessages(count, groups[0].messages)
      && Covers(groups[1..], messages, from + BlockLength(messages, from), to, count)
  }

  ghost predicate Cuts(groups: seq<Group>, messages: seq<Message>, from: nat, count: Message -> nat)
    requires from <= |messages|
  {
    Covers(groups, messages, from, |messages|, count)
  }

  lemma {:induction false} CoversOneMore(
    groups: seq<Group>, messages: seq<Message>, from: nat, to: nat, count: Message -> nat, group: Group)
    requires from <= to < |messages| && Covers(groups, messages, from, to, count)
    requires group.messages == messages[to..to + BlockLength(messages, to)]
    requires group.tokens == CountMessages(count, group.messages)
    ensures Covers(groups + [group], messages, from, to + BlockLength(messages, to), count)
    decreases |groups|
  {
    hide CountMessages, Following, CallIds;
    if groups == [] {
      assert [group][1..] == [];
      assert groups + [group] == [group];
    } else {
      CoversOneMore(groups[1..], messages, from + BlockLength(messages, from), to, count, group);
      assert (groups + [group])[1..] == groups[1..] + [group];
    }
  }

  method GroupAtomicMessages(messages: seq<Message>, count: Message -> nat) returns (groups: seq<Group>)
    ensures Cuts(groups, messages, 0, count)
  {
    groups := [];
    var i := 0;
    assert Covers(groups, messages, 0, i, count);
    hide Covers, Following, CountMessages;
    while i < |messages|
      invariant 0 <= i <= |messages|
      invariant Covers(groups, messages, 0, i, count)
      decreases |messages| - i
    {
      var group := TakeGroup(messages, i, count);
      CoversOneMore(groups, messages, 0, i, count, group);
      ghost var next := i + BlockLength(messages, i);
      groups := groups + [group];
      i := i + |group.messages|;
      assert i == next;
    }
  }

  method TakeGroup(messages: seq<Message>, start: nat, count: Message -> nat) returns (group: Group)
    requires start < |messages|
    ensures |group.messages| == BlockLength(messages, start)
    ensures group.messages == messages[start..start + BlockLength(messages, start)]
    ensures group.tokens == CountMessages(count, group.messages)
  {
    var block := TakeBlock(messages, start);
    group := Group(block, CountMessages(count, block));
  }

  // The message at `start`, with the results that answer it when it makes calls.
  method TakeBlock(messages: seq<Message>, start: nat) returns (block: seq<Message>)
    requires start < |messages|
    ensures |block| == BlockLength(messages, start)
    ensures block == messages[start..start + |block|]
  {
    var message := messages[start];
    var i := start + 1;
    if message.Assistant? && message.calls != [] {
      i := FollowingResults(messages, i, set c | c in message.calls :: c.id);
    } else {
      assert CallIds(message) == {};
    }
    block := messages[start..i];
  }

  method FollowingResults(messages: seq<Message>, from: nat, expected: set<Id>) returns (i: nat)
    requires from <= |messages|
    ensures i == from + Following(messages, from, expected)
  {
    i := from;
    while i < |messages| && messages[i].Tool? && messages[i].callId in expected
      invariant from <= i <= |messages|
      invariant i + Following(messages, i, expected) == from + Following(messages, from, expected)
    {
      i := i + 1;
    }
  }

  // The only way to cut a transcript into whole blocks, written down.
  function GroupsOf(messages: seq<Message>, from: nat, count: Message -> nat): seq<Group>
    requires from <= |messages|
    decreases |messages| - from
  {
    if from == |messages| then []
    else
      var next := from + BlockLength(messages, from);
      [Group(messages[from..next], CountMessages(count, messages[from..next]))] + GroupsOf(messages, next, count)
  }

  lemma {:induction false} CutsIff(groups: seq<Group>, messages: seq<Message>, from: nat, count: Message -> nat)
    requires from <= |messages|
    ensures Cuts(groups, messages, from, count) <==> groups == GroupsOf(messages, from, count)
    decreases |messages| - from
  {
    hide CountMessages, BlockLength;
    if from < |messages| {
      var next := from + BlockLength(messages, from);
      if groups != [] {
        CutsIff(groups[1..], messages, next, count);
        assert groups == [groups[0]] + groups[1..];
      }
      assert GroupsOf(messages, from, count)[1..] == GroupsOf(messages, next, count);
    }
  }

  // The blocks are never empty and put end to end they are the transcript again; their sizes
  // add up to its size.
  lemma {:induction false} GroupsConcatenate(
    groups: seq<Group>, messages: seq<Message>, from: nat, count: Message -> nat)
    requires from <= |messages| && Cuts(groups, messages, from, count)
    ensures Messages(groups) == messages[from..]
    ensures forall g :: g in groups ==> g.messages != []
    ensures TotalTokens(groups) == CountMessages(count, messages[from..])
    decreases |groups|
  {
    hide Messages, TotalTokens, CountMessages, Following, CallIds, BlockLength;
    if groups == [] {
      NothingGrouped(count);
    } else {
      var next := from + BlockLength(messages, from);
      FirstGroup(groups);
      GroupsConcatenate(groups[1..], messages, next, count);
      assert messages[from..] == messages[from..next] + messages[next..];
      CountConcat(count, messages[from..next], messages[next..]);
    }
  }

  lemma NothingGrouped(count: Message -> nat)
    ensures Messages([]) == [] && TotalTokens([]) == 0 && CountMessages(count, []) == 0
  {
  }

  lemma FirstGroup(groups: seq<Group>)
    requires groups != []
    ensures Messages(groups) == groups[0].messages + Messages(groups[1..])
    ensures TotalTokens(groups) == groups[0].tokens + TotalTokens(groups[1..])
    ensures forall g :: g in groups ==> g == groups[0] || g in groups[1..]
  {
    assert BlocksOf(groups)[1..] == BlocksOf(groups[1..]);
  }

  lemma {:induction false} CountConcat(count: Message -> nat, a: seq<Message>, b: seq<Message>)
    ensures CountMessages(count, a + b) == CountMessages(count, a) + CountMessages(count, b)
  {
    if b == [] {
      assert a + b == a;
    } else {
      assert (a + b)[..|a + b| - 1] == a + b[..|b| - 1];
      CountConcat(count, a, b[..|b| - 1]);
    }
  }

  // In an accepted transcript every block is itself a well-formed window.
  lemma {:induction false} BlocksAreWellFormed(
    groups: seq<Group>, messages: seq<Message>, from: nat, count: Message -> nat)
    requires from <= |messages| && Cuts(groups, messages, from, count)
    requires Accepted(messages[from..])
    ensures forall g :: g in groups ==> WellFormedBlock(g.messages) && Accepted(g.messages)
    decreases |groups|
  {
    if groups != [] {
      var next := from + BlockLength(messages, from);
      var block, rest := messages[from..next], messages[next..];
      BlockEndsClean(messages, from);
      BlockAccepted(block);
      BlocksAreWellFormed(groups[1..], messages, next, count);
      assert forall g :: g in groups ==> g == groups[0] || g in groups[1..];
    }
  }

  // The first block of an accepted window leaves nothing waiting for the rest of it.
  lemma BlockEndsClean(messages: seq<Message>, from: nat)
    requires from < |messages| && Accepted(messages[from..])
    ensures var next := from + BlockLength(messages, from);
            && !messages[from].Tool?
            && AllResults(messages[from..next][1..])
            && Accepted(messages[from..next]) && Accepted(messages[next..])
  {
    var next := from + BlockLength(messages, from);
    var block, rest := messages[from..next], messages[next..];
    assert !messages[from].Tool? by {
      assert messages[from..] == [messages[from]] + messages[from + 1..];
      FirstMessage(Some({}), messages[from], messages[from + 1..]);
    }
    BlockIsCallerAndResults(messages, from);
    assert Scan(Scan(Some({}), block), rest) == Some({}) by {
      assert messages[from..] == block + rest;
      ScanConcat(Some({}), block, rest);
    }
    assert rest != [] ==> rest[0] == messages[next];
    RestStartsClean(block, rest);
  }

  lemma BlockIsCallerAndResults(messages: seq<Message>, from: nat)
    requires from < |messages|
    ensures var block := messages[from..from + BlockLength(messages, from)];
            block[0] == messages[from] && AllResults(block[1..])
  {
    var block := messages[from..from + BlockLength(messages, from)];
    assert forall k :: 1 <= k < |block| ==> block[k] == messages[from + k];
  }

  // When what follows a block is accepted and does not answer its calls, none was waiting.
  lemma RestStartsClean(block: seq<Message>, rest: seq<Message>)
    requires block != [] && !block[0].Tool? && AllResults(block[1..])
    requires Scan(Scan(Some({}), block), rest) == Some({})
    requires rest != [] ==> !(rest[0].Tool? && rest[0].callId in CallIds(block[0]))
    ensures Accepted(block) && Accepted(rest)
  {
    BlockLeaves(block);
    if rest != [] {
      assert rest == [rest[0]] + rest[1..];
      FirstMessage(Scan(Some({}), block), rest[0], rest[1..]);
    }
  }

  lemma FirstMessage(waiting: Option<set<Id>>, first: Message, rest: seq<Message>)
    requires Scan(waiting, [first] + rest) == Some({})
    ensures waiting.Some?
    ensures if first.Tool? then first.callId in waiting.value else waiting.value == {}
  {
    ScanCons(waiting, first, rest);
    RejectedStays(rest);
  }

  // A block leaves at most calls of its own first message waiting.
  lemma BlockLeaves(block: seq<Message>)
    requires block != [] && !block[0].Tool? && AllResults(block[1..])
    ensures Scan(Some({}), block).Some? ==> Scan(Some({}), block).value <= CallIds(block[0])
  {
    assert block == [block[0]] + block[1..];
    ScanCons(Some({}), block[0], block[1..]);
    ScanResults(CallIds(block[0]), block[1..]);
  }

  // Any choice of whole blocks, in order.
  function Chosen(groups: seq<Group>, keep: seq<bool>): seq<Group>
    requires |keep| == |groups|
  {
    if groups == [] then [] else (if keep[0] then [groups[0]] else []) + Chosen(groups[1..], keep[1..])
  }

  lemma {:induction false} ChosenAreBlocks(groups: seq<Group>, keep: seq<bool>)
    requires |keep| == |groups|
    ensures forall g :: g in Chosen(groups, keep) ==> g in groups
  {
    if groups != [] { ChosenAreBlocks(groups[1..], keep[1..]); }
  }

  lemma {:induction false} AcceptedGroups(groups: seq<Group>)
    requires forall g :: g in groups ==> Accepted(g.messages)
    ensures Accepted(Messages(groups))
  {
    if groups != [] {
      AcceptedGroups(groups[1..]);
      assert Accepted(groups[0].messages);
      ScanConcat(Some({}), groups[0].messages, Messages(groups[1..]));
    }
  }

  // Compaction closure: keep any subsequence of the blocks of an accepted transcript, and the
  // provider still accepts what is left.
  lemma {:induction false} AnySubsequenceOfBlocksIsAccepted(
    groups: seq<Group>, messages: seq<Message>, count: Message -> nat, keep: seq<bool>)
    requires Cuts(groups, messages, 0, count) && |keep| == |groups|
    requires Accepted(messages)
    ensures Accepted(Messages(Chosen(groups, keep)))
  {
    assert messages[0..] == messages;
    BlocksAreWellFormed(groups, messages, 0, count);
    ChosenAreBlocks(groups, keep);
    AcceptedGroups(Chosen(groups, keep));
  }

  // A window is accepted exactly when it is a row of well-formed blocks.
  lemma AcceptedIffBlocks(messages: seq<Message>)
    ensures Accepted(messages)
            <==> exists blocks: seq<seq<Message>> ::
                   Flatten(blocks) == messages && forall b :: b in blocks ==> WellFormedBlock(b)
  {
    if Accepted(messages) {
      var blocks := SplitAccepted(messages);
    }
    forall blocks: seq<seq<Message>> | Flatten(blocks) == messages && forall b :: b in blocks ==> WellFormedBlock(b)
      ensures Accepted(messages)
    {
      forall b | b in blocks ensures Accepted(b) { BlockAccepted(b); }
      AcceptedBlocksConcat(blocks);
    }
  }

  lemma {:induction false} SplitAccepted(messages: seq<Message>) returns (blocks: seq<seq<Message>>)
    requires Accepted(messages)
    ensures Flatten(blocks) == messages && forall b :: b in blocks ==> WellFormedBlock(b)
    decreases |messages|
  {
    if messages == [] {
      blocks := [];
    } else {
      assert messages[0..] == messages;
      BlockEndsClean(messages, 0);
      var n := BlockLength(messages, 0);
      BlockAccepted(messages[..n]);
      var rest := SplitAccepted(messages[n..]);
      blocks := [messages[..n]] + rest;
      assert messages == messages[..n] + messages[n..];
    }
  }

  // ---- Splitting off the recent blocks ---------------------------------------------------

  // What the split promises about the block index where "recent" begins.
  ghost predicate LongestAffordable(groups: seq<Group>, maxTokens: int, minKeep: nat, cut: int) {
    && 0 <= cut <= |groups|
    && |groups| - cut >= (if minKeep <= |groups| then minKeep else |groups|)
    && (TotalTokens(groups[cut..]) > maxTokens ==> |groups| - cut <= minKeep)
    && ((forall g :: g in groups ==> g.tokens > 0) ==>
          forall earlier :: 0 <= earlier < cut ==> TotalTokens(groups[earlier..]) > maxTokens)
  }

  lemma {:induction false} TokensGrow(groups: seq<Group>, a: nat, b: nat)
    requires a <= b <= |groups|
    ensures TotalTokens(groups[a..]) >= TotalTokens(groups[b..])
    ensures (forall g :: g in groups ==> g.tokens > 0) && a < b ==>
              TotalTokens(groups[a..]) > TotalTokens(groups[b..])
    decreases b - a
  {
    if a < b {
      assert groups[a..][1..] == groups[a + 1..];
      assert groups[a] in groups;
      TokensGrow(groups, a + 1, b);
    }
  }

  function TokensFrom(groups: seq<Group>, i: nat): nat
    requires i <= |groups|
  {
    TotalTokens(groups[i..])
  }

  lemma TokensOneMore(groups: seq<Group>, i: nat)
    requires i < |groups|
    ensures TokensFrom(groups, i) == groups[i].tokens + TokensFrom(groups, i + 1)
  {
    assert groups[i..][1..] == groups[i + 1..];
  }

  // Stopping where the loop stops gives the longest affordable suffix.
  lemma StoppedAtTheLongest(groups: seq<Group>, maxTokens: int, minKeep: nat, kept: nat)
    requires kept <= |groups| && (kept < |groups| ==> kept >= minKeep)
    requires TokensFrom(groups, |groups| - kept) <= maxTokens || kept <= minKeep
    requires var cut := |groups| - kept;
             cut == 0 || TokensFrom(groups, cut - 1) > maxTokens || TokensFrom(groups, cut) >= maxTokens
    ensures LongestAffordable(groups, maxTokens, minKeep, |groups| - kept)
  {
    NoEarlierCutFits(groups, maxTokens, |groups| - kept);
  }

  lemma NoEarlierCutFits(groups: seq<Group>, maxTokens: int, cut: int)
    requires 0 <= cut <= |groups|
    requires cut == 0 || TotalTokens(groups[cut - 1..]) > maxTokens || TotalTokens(groups[cut..]) >= maxTokens
    ensures (forall g :: g in groups ==> g.tokens > 0) ==>
              forall earlier :: 0 <= earlier < cut ==> TotalTokens(groups[earlier..]) > maxTokens
  {
    if forall g :: g in groups ==> g.tokens > 0 {
      forall earlier | 0 <= earlier < cut ensures TotalTokens(groups[earlier..]) > maxTokens {
        TokensGrow(groups, earlier, cut - 1);
        TokensGrow(groups, cut - 1, cut);
      }
    }
  }

  // The loop over the reversed groups: how many of the newest are kept.
  method CountRecent(groups: seq<Group>, maxTokens: int, minKeep: nat) returns (kept: nat)
    ensures kept <= |groups| && (kept < |groups| ==> kept >= minKeep)
    ensures TokensFrom(groups, |groups| - kept) <= maxTokens || kept <= minKeep
    ensures kept == |groups| || TokensFrom(groups, |groups| - kept - 1) > maxTokens
            || TokensFrom(groups, |groups| - kept) >= maxTokens
  {
    var n, used := |groups|, 0;
    kept := 0;
    assert TokensFrom(groups, n) == 0;
    hide TokensFrom;
    while kept < n
      invariant 0 <= kept <= n
      invariant used == TokensFrom(groups, n - kept)
      invariant kept > minKeep || (kept == minKeep && kept > 0) ==> used < maxTokens
    {
      TokensOneMore(groups, n - kept - 1);
      var total := used + groups[n - kept - 1].tokens;
      if kept >= minKeep && total > maxTokens {
        break;
      }
      kept := kept + 1;
      used := total;
      if kept >= minKeep && used >= maxTokens {
        break;
      }
    }
  }

  method SplitRecentMessages(groups: seq<Group>, maxTokens: int, minKeep: nat)
    returns (old_: seq<Message>, recent: seq<Message>, ghost cut: int)
    ensures LongestAffordable(groups, maxTokens, minKeep, cut)
    ensures old_ == Messages(groups[..cut]) && recent == Messages(groups[cut..])
    ensures old_ + recent == Messages(groups)
  {
    hide LongestAffordable, TokensFrom, TotalTokens, Messages;
    var n := |groups|;
    var kept := CountRecent(groups, maxTokens, minKeep);
    cut := n - kept;
    StoppedAtTheLongest(groups, maxTokens, minKeep, kept);
    old_, recent := Messages(groups[..n - kept]), Messages(groups[n - kept..]);
    MessagesConcat(groups[..n - kept], groups[n - kept..]);
    assert groups[..n - kept] + groups[n - kept..] == groups;
  }

  lemma {:induction false} MessagesConcat(a: seq<Group>, b: seq<Group>)
    ensures Messages(a + b) == Messages(a) + Messages(b)
  {
    if a == [] {
      assert a + b == b;
    } else {
      assert (a + b)[1..] == a[1..] + b;
      MessagesConcat(a[1..], b);
    }
  }

  // With positive block sizes those conditions leave only one place to cut.
  lemma CutIsUnique(groups: seq<Group>, maxTokens: int, minKeep: nat, a: int, b: int)
    requires forall g :: g in groups ==> g.tokens > 0
    requires LongestAffordable(groups, maxTokens, minKeep, a) && LongestAffordable(groups, maxTokens, minKeep, b)
    ensures a == b
  {
  }

  // ---- Turns -----------------------------------------------------------------------------

  predicate OpensTurn(group: Group) {
    group.messages != [] && group.messages[0].User? && group.messages[0].source != HARNESS
  }

  // The last block that holds a real user message; 0 when there is none.
  function CurrentTurnStart(groups: seq<Group>): (start: nat)
    ensures start < |groups| || start == 0
    ensures (exists i :: 0 <= i < |groups| && OpensTurn(groups[i])) ==> start < |groups| && OpensTurn(groups[start])
    ensures forall i :: start < i < |groups| ==> !OpensTurn(groups[i])
  {
    if groups == [] then 0
    else if OpensTurn(groups[|groups| - 1]) then |groups| - 1
    else CurrentTurnStart(groups[..|groups| - 1])
  }
}
