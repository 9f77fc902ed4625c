// One round of tool calls: batching, bounded concurrency, and the order of the answers
// (ToolDispatcher._batches and dispatch_many in max_ai/core/tool/dispatcher.py).
module ToolRound {
  import opened Common
  import opened Schedules

  datatype Call = Call(id: Id, readOnly: bool)

  datatype Message = Message(callId: Id, text: string)

  // ---- Batches ---------------------------------------------------------------------------

  function Concat(batches: seq<seq<Call>>): seq<Call> {
    if batches == [] then [] else Concat(batches[..|batches| - 1]) + batches[|batches| - 1]
  }

  predicate AllReadOnly(calls: seq<Call>) {
    forall c :: c in calls ==> c.readOnly
  }

  // A batch is one call, or several read-only calls; two batches in a row are never both
  // read-only, so read-only runs are as long as they can be.
  ghost predicate Batched(batches: seq<seq<Call>>, calls: seq<Call>) {
    && Concat(batches) == calls
    && (forall b :: b in batches ==> b != [] && (|b| == 1 || AllReadOnly(b)))
    && (forall i :: 0 < i < |batches| ==> Apart(batches, i))
  }

  // This batch and the one before it are not both read-only.
  predicate Apart(batches: seq<seq<Call>>, i: int)
    requires 0 < i < |batches|
  {
    !(AllReadOnly(batches[i - 1]) && AllReadOnly(batches[i]))
  }

  method Batches(calls: seq<Call>) returns (batches: seq<seq<Call>>)
    ensures batches == BatchesOf(calls) && Batched(batches, calls)
  {
    batches := [];
    var previousReadOnly := false;
    var i := 0;
    hide Joined, AllReadOnly;
    while i < |calls|
      invariant 0 <= i <= |calls|
      invariant batches == BatchesOf(calls[..i])
      invariant previousReadOnly <==> i > 0 && calls[i - 1].readOnly
    {
      var call := calls[i];
      OneMoreCall(calls, i);
      if call.readOnly && previousReadOnly {
        batches := batches[..|batches| - 1] + [batches[|batches| - 1] + [call]];
      } else {
        batches := batches + [[call]];
      }
      previousReadOnly := call.readOnly;
      i := i + 1;
    }
    assert calls[..i] == calls;
    BatchesOfIsBatched(calls);
  }

  // The last batch is read-only exactly when the last call is.
  lemma LastBatchIsReadOnly(calls: seq<Call>)
    requires calls != []
    ensures BatchesOf(calls) != []
    ensures AllReadOnly(BatchesOf(calls)[|BatchesOf(calls)| - 1]) <==> calls[|calls| - 1].readOnly
  {
    var early, call := BatchesOf(calls[..|calls| - 1]), calls[|calls| - 1];
    assert call in [call];
    assert BatchesOf(calls) == Joined(early, call);
  }

  lemma OneMoreCall(calls: seq<Call>, i: nat)
    requires i < |calls|
    ensures i > 0 ==> BatchesOf(calls[..i]) != []
    ensures var early := BatchesOf(calls[..i]);
            BatchesOf(calls[..i + 1]) ==
            if calls[i].readOnly && i > 0 && calls[i - 1].readOnly
            then early[..|early| - 1] + [early[|early| - 1] + [calls[i]]] else early + [[calls[i]]]
  {
    assert calls[..i + 1][..i] == calls[..i];
    if i > 0 { LastBatchIsReadOnly(calls[..i]); }
  }

  lemma Extended(batches: seq<seq<Call>>, calls: seq<Call>, call: Call)
    requires Batched(batches, calls) && batches != [] && call.readOnly && AllReadOnly(batches[|batches| - 1])
    ensures Batched(batches[..|batches| - 1] + [batches[|batches| - 1] + [call]], calls + [call])
    ensures AllReadOnly(batches[|batches| - 1] + [call])
  {
    var n := |batches| - 1;
    var longer := batches[..n] + [batches[n] + [call]];
    assert longer[..n] == batches[..n];
    assert Concat(longer) == Concat(batches[..n]) + (batches[n] + [call]);
    forall i | 0 < i < |longer| ensures Apart(longer, i) {
      assert Apart(batches, i);
    }
  }

  lemma {:induction false} Appended(batches: seq<seq<Call>>, calls: seq<Call>, call: Call)
    requires Batched(batches, calls)
    requires !(call.readOnly && batches != [] && AllReadOnly(batches[|batches| - 1]))
    ensures Batched(batches + [[call]], calls + [call])
    ensures AllReadOnly([call]) <==> call.readOnly
  {
    var longer := batches + [[call]];
    assert longer[..|batches|] == batches;
    assert call in [call];
    forall i | 0 < i < |longer| ensures Apart(longer, i) {
      if i < |batches| { assert Apart(batches, i); }
    }
  }

  // There is only one way to batch a round.
  lemma {:induction false} BatchingIsUnique(a: seq<seq<Call>>, b: seq<seq<Call>>, calls: seq<Call>)
    requires Batched(a, calls) && Batched(b, calls)
    ensures a == b
    decreases |a|
  {
    if calls == [] {
      NoEmptyBatches(a, calls);
      NoEmptyBatches(b, calls);
    } else {
      assert a != [] && b != [];
      var x, y := a[|a| - 1], b[|b| - 1];
      SameLastBatch(a, b, calls);
      PrefixBatched(a, calls);
      PrefixBatched(b, calls);
      BatchingIsUnique(a[..|a| - 1], b[..|b| - 1], calls[..|calls| - |x|]);
      assert a == a[..|a| - 1] + [x] && b == b[..|b| - 1] + [y];
    }
  }

  lemma NoEmptyBatches(batches: seq<seq<Call>>, calls: seq<Call>)
    requires Batched(batches, calls)
    ensures batches != [] ==> calls != []
  {
    if batches != [] {
      assert batches[|batches| - 1] in batches;
    }
  }

  lemma PrefixBatched(batches: seq<seq<Call>>, calls: seq<Call>)
    requires Batched(batches, calls) && batches != []
    ensures |batches[|batches| - 1]| <= |calls|
    ensures Batched(batches[..|batches| - 1], calls[..|calls| - |batches[|batches| - 1]|])
  {
    var n := |batches| - 1;
    assert calls == Concat(batches[..n]) + batches[n];
    assert calls[..|calls| - |batches[n]|] == Concat(batches[..n]);
    forall i | 0 < i < n ensures Apart(batches[..n], i) {
      assert Apart(batches, i);
    }
  }

  lemma SameLastBatch(a: seq<seq<Call>>, b: seq<seq<Call>>, calls: seq<Call>)
    requires Batched(a, calls) && Batched(b, calls) && calls != []
    ensures a != [] && b != [] && a[|a| - 1] == b[|b| - 1]
  {
    LastBatchLength(a, calls);
    LastBatchLength(b, calls);
    var n := LastRun(calls);
    assert a[|a| - 1] == calls[|calls| - n..] && b[|b| - 1] == calls[|calls| - n..];
  }

  // How many read-only calls the round ends with (1 when it ends with another call).
  function LastRun(calls: seq<Call>): (n: nat)
    requires calls != []
    ensures 1 <= n <= |calls|
    ensures n == 1 || forall i :: |calls| - n <= i < |calls| ==> calls[i].readOnly
    ensures calls[|calls| - 1].readOnly && n < |calls| ==> !calls[|calls| - n - 1].readOnly
  {
    if calls[|calls| - 1].readOnly && |calls| > 1 && calls[|calls| - 2].readOnly
    then 1 + LastRun(calls[..|calls| - 1]) else 1
  }

  lemma LastBatchLength(batches: seq<seq<Call>>, calls: seq<Call>)
    requires Batched(batches, calls) && calls != []
    ensures batches != [] && |batches[|batches| - 1]| == LastRun(calls)
    ensures batches[|batches| - 1] == calls[|calls| - LastRun(calls)..]
  {
    hide AllReadOnly, LastRun;
    var n := |batches| - 1;
    var last := batches[n];
    assert last in batches;
    assert calls == Concat(batches[..n]) + last;
    if n > 0 {
      var before := batches[n - 1];
      assert before in batches;
      assert batches[..n][..n - 1] == batches[..n - 1];
      assert Apart(batches, n);
      BoundaryIsSharp(before, last);
      assert calls == Concat(batches[..n - 1]) + before + last;
      RunEnds(Concat(batches[..n - 1]) + before, last);
    } else {
      RunEnds([], last);
    }
  }

  // Where the last run of read-only calls begins.
  lemma {:induction false} RunEnds(front: seq<Call>, last: seq<Call>)
    requires last != [] && (|last| == 1 || AllReadOnly(last))
    requires front == [] || !(front[|front| - 1].readOnly && last[0].readOnly)
    ensures LastRun(front + last) == |last|
    ensures (front + last)[|front|..] == last
    decreases |last|
  {
    var calls := front + last;
    if |last| > 1 {
      assert calls[..|calls| - 1] == front + last[..|last| - 1];
      assert AllReadOnly(last[..|last| - 1]);
      RunEnds(front, last[..|last| - 1]);
    }
  }

  lemma BoundaryIsSharp(before: seq<Call>, last: seq<Call>)
    requires before != [] && last != []
    requires (|before| == 1 || AllReadOnly(before)) && (|last| == 1 || AllReadOnly(last))
    requires !(AllReadOnly(before) && AllReadOnly(last))
    ensures !(before[|before| - 1].readOnly && last[0].readOnly)
  {
  }

  // The only way to batch a round, written down.
  function BatchesOf(calls: seq<Call>): seq<seq<Call>> {
    if calls == [] then [] else Joined(BatchesOf(calls[..|calls| - 1]), calls[|calls| - 1])
  }

  function Joined(early: seq<seq<Call>>, call: Call): seq<seq<Call>> {
    if call.readOnly && early != [] && AllReadOnly(early[|early| - 1])
    then early[..|early| - 1] + [early[|early| - 1] + [call]] else early + [[call]]
  }

  lemma JoinedIsBatched(early: seq<seq<Call>>, calls: seq<Call>, call: Call)
    requires Batched(early, calls)
    ensures Batched(Joined(early, call), calls + [call])
  {
    hide Batched, AllReadOnly;
    if call.readOnly && early != [] && AllReadOnly(early[|early| - 1]) {
      Extended(early, calls, call);
    } else {
      Appended(early, calls, call);
    }
  }

  lemma {:induction false} BatchesOfIsBatched(calls: seq<Call>)
    ensures Batched(BatchesOf(calls), calls)
  {
    hide Batched, Joined;
    NoBatches();
    if calls != [] {
      var n := |calls| - 1;
      BatchesOfIsBatched(calls[..n]);
      JoinedIsBatched(BatchesOf(calls[..n]), calls[..n], calls[n]);
      assert calls == calls[..n] + [calls[n]];
    }
  }

  lemma NoBatches()
    ensures Batched([], [])
  {
  }

  // ---- Dispatching a round ---------------------------------------------------------------

  // The answers of the calls that did not pause, in call order.
  function Emitted(calls: seq<Call>, outcomes: seq<Outcome>): seq<Message>
    requires |calls| == |outcomes|
  {
    if calls == [] then []
    else
      var n := |calls| - 1;
      Emitted(calls[..n], outcomes[..n]) +
      if outcomes[n].Answer? then [Message(calls[n].id, outcomes[n].text)] else []
  }

  // What may be in flight together: a set of positions of the round.
  ghost predicate SafeTogether(calls: seq<Call>, positions: set<nat>) {
    && (forall p :: p in positions ==> p < |calls|)
    && (|positions| <= 1 || forall p :: p in positions ==> calls[p].readOnly)
  }

  ghost predicate AllSafe(flights: seq<set<nat>>, calls: seq<Call>, limit: nat) {
    forall f :: f in flights ==> |f| <= limit && SafeTogether(calls, f)
  }

  // Whatever is neither waiting nor in flight has ended as it was to end, without an exception.
  ghost predicate Underway(endings: seq<Outcome>, outcomes: seq<Outcome>, offset: nat, b: Board) {
    && offset + |outcomes| <= |endings|
    && forall i :: 0 <= i < |outcomes| && offset + i !in b.waiting && offset + i !in b.inFlight ==>
         outcomes[i] == endings[offset + i] != Raises
  }

  // One batch of `n` calls, moved by the schedule until all have ended or one raises. An
  // exception ends the round but not its siblings: `running` are the calls left to run on.
  method RunBatch(endings: seq<Outcome>, offset: nat, n: nat, limit: nat, moves: seq<Move>)
    returns (outcomes: seq<Outcome>, raised: bool, running: set<nat>, flights: seq<set<nat>>)
    requires offset + n <= |endings| && Schedule(Fresh(offset, n), moves, endings, limit)
    ensures raised <==> Raises in endings[offset..offset + n]
    ensures !raised ==> outcomes == endings[offset..offset + n]
    ensures running == Unfinished(Fresh(offset, n), moves) && (!raised ==> running == {})
    ensures flights == Flights(Fresh(offset, n), moves)
  {
    hide *;
    outcomes, raised, running, flights := seq(n, _ => Pending), false, {}, [];
    var board := Fresh(offset, n);
    var k := 0;
    BatchBegins(endings, outcomes, offset, n, limit, moves);
    while k < |moves|
      invariant 0 <= k <= |moves| && |outcomes| == n && offset + n <= |endings|
      invariant BatchSoFar(endings, outcomes, offset, n, limit, moves, k, board, flights)
    {
      var move := moves[k];
      MoveOn(endings, outcomes, offset, n, limit, moves, k, board, flights);
      board := Played(board, move);
      flights := flights + [board.inFlight];
      if move.Ends? {
        if endings[move.p] == Raises {
          return outcomes, true, board.waiting + board.inFlight, flights;
        }
        outcomes := outcomes[move.p - offset := endings[move.p]];
      }
      k := k + 1;
    }
    BatchDone(endings, outcomes, offset, n, limit, moves, board, flights);
  }

  // The batch after its first `k` moves, with no call having raised.
  ghost predicate BatchSoFar(
    endings: seq<Outcome>, outcomes: seq<Outcome>, offset: nat, n: nat, limit: nat, moves: seq<Move>, k: nat,
    board: Board, flights: seq<set<nat>>)
  {
    && Schedule(Fresh(offset, n), moves, endings, limit) && offset + n <= |endings| && |outcomes| == n
    && k <= |moves| && !Stopped(moves[..k], endings)
    && board == BoardAfter(Fresh(offset, n), moves[..k]) && flights == Flights(Fresh(offset, n), moves[..k])
    && Underway(endings, outcomes, offset, board)
  }

  lemma BatchBegins(
    endings: seq<Outcome>, outcomes: seq<Outcome>, offset: nat, n: nat, limit: nat, moves: seq<Move>)
    requires Schedule(Fresh(offset, n), moves, endings, limit) && offset + n <= |endings| && |outcomes| == n
    ensures BatchSoFar(endings, outcomes, offset, n, limit, moves, 0, Fresh(offset, n), [])
  {
  }

  // One more move: it ends the batch when a call raises, and is one more step otherwise.
  lemma {:induction false} MoveOn(
    endings: seq<Outcome>, outcomes: seq<Outcome>, offset: nat, n: nat, limit: nat, moves: seq<Move>, k: nat,
    board: Board, flights: seq<set<nat>>)
    requires k < |moves| && BatchSoFar(endings, outcomes, offset, n, limit, moves, k, board, flights)
    ensures offset <= moves[k].p < offset + n
    ensures var after := Played(board, moves[k]);
            var flown := flights + [after.inFlight];
            && (moves[k].Starts? ==>
                  BatchSoFar(endings, outcomes, offset, n, limit, moves, k + 1, after, flown))
            && (moves[k].Ends? && endings[moves[k].p] != Raises ==>
                  BatchSoFar(endings, outcomes[moves[k].p - offset := endings[moves[k].p]], offset, n, limit, moves,
                             k + 1, after, flown))
            && (moves[k].Ends? && endings[moves[k].p] == Raises ==>
                  && Raises in endings[offset..offset + n]
                  && after.waiting + after.inFlight == Unfinished(Fresh(offset, n), moves)
                  && flown == Flights(Fresh(offset, n), moves))
  {
    hide BatchSoFar, Underway, Played, Fresh, Flights, Unfinished;
    MoveIsInside(endings, outcomes, offset, n, limit, moves, k, board, flights);
    if moves[k].Starts? {
      StepsOn(endings, outcomes, outcomes, offset, n, limit, moves, k, board, flights);
    } else if endings[moves[k].p] == Raises {
      RaisesOn(endings, outcomes, offset, n, limit, moves, k, board, flights);
    } else {
      var now := outcomes[moves[k].p - offset := endings[moves[k].p]];
      StepsOn(endings, outcomes, now, offset, n, limit, moves, k, board, flights);
    }
  }

  lemma MoveIsInside(
    endings: seq<Outcome>, outcomes: seq<Outcome>, offset: nat, n: nat, limit: nat, moves: seq<Move>, k: nat,
    board: Board, flights: seq<set<nat>>)
    requires k < |moves| && BatchSoFar(endings, outcomes, offset, n, limit, moves, k, board, flights)
    ensures offset <= moves[k].p < offset + n <= |endings| && |outcomes| == n
    ensures moves[k].Starts? ==> Underway(endings, outcomes, offset, Played(board, moves[k]))
    ensures moves[k].Ends? && endings[moves[k].p] != Raises ==>
              Underway(endings, outcomes[moves[k].p - offset := endings[moves[k].p]], offset, Played(board, moves[k]))
  {
    hide Schedule, Fresh, Underway, BoardAfter, Flights, Played, Stopped;
    OneMove(Fresh(offset, n), moves, endings, limit, offset, n, k);
    StillUnderway(endings, outcomes, offset, board, moves[k]);
  }

  lemma StepsOn(
    endings: seq<Outcome>, outcomes: seq<Outcome>, now: seq<Outcome>, offset: nat, n: nat, limit: nat,
    moves: seq<Move>, k: nat, board: Board, flights: seq<set<nat>>)
    requires k < |moves| && BatchSoFar(endings, outcomes, offset, n, limit, moves, k, board, flights)
    requires moves[k].p < |endings| && !(moves[k].Ends? && endings[moves[k].p] == Raises)
    requires |now| == n && Underway(endings, now, offset, Played(board, moves[k]))
    ensures BatchSoFar(endings, now, offset, n, limit, moves, k + 1, Played(board, moves[k]),
                       flights + [Played(board, moves[k]).inFlight])
  {
    hide Schedule, Fresh, Underway, BoardAfter, Flights, Played, Stopped;
    OneMove(Fresh(offset, n), moves, endings, limit, offset, n, k);
  }

  lemma RaisesOn(
    endings: seq<Outcome>, outcomes: seq<Outcome>, offset: nat, n: nat, limit: nat, moves: seq<Move>, k: nat,
    board: Board, flights: seq<set<nat>>)
    requires k < |moves| && BatchSoFar(endings, outcomes, offset, n, limit, moves, k, board, flights)
    requires moves[k].Ends? && moves[k].p < |endings| && endings[moves[k].p] == Raises
    ensures var after := Played(board, moves[k]);
            && Raises in endings[offset..offset + n]
            && after.waiting + after.inFlight == Unfinished(Fresh(offset, n), moves)
            && flights + [after.inFlight] == Flights(Fresh(offset, n), moves)
  {
    hide Schedule, Fresh, Underway, BoardAfter, Flights, Played, Stopped;
    OneMove(Fresh(offset, n), moves, endings, limit, offset, n, k);
    RaisedHere(Fresh(offset, n), moves, endings, limit, offset, n, k);
  }

  lemma {:induction false} BatchDone(
    endings: seq<Outcome>, outcomes: seq<Outcome>, offset: nat, n: nat, limit: nat, moves: seq<Move>,
    board: Board, flights: seq<set<nat>>)
    requires BatchSoFar(endings, outcomes, offset, n, limit, moves, |moves|, board, flights)
    ensures outcomes == endings[offset..offset + n] && Raises !in endings[offset..offset + n]
    ensures Unfinished(Fresh(offset, n), moves) == {} && flights == Flights(Fresh(offset, n), moves)
  {
    hide Schedule, Fresh, Underway, BoardAfter, Flights, Fits;
    assert moves[..|moves|] == moves;
    AllEnded(Fresh(offset, n), moves, endings, limit, offset, outcomes);
  }

  lemma StillUnderway(endings: seq<Outcome>, outcomes: seq<Outcome>, offset: nat, b: Board, m: Move)
    requires Underway(endings, outcomes, offset, b) && offset <= m.p < offset + |outcomes|
    ensures m.Starts? ==> Underway(endings, outcomes, offset, Played(b, m))
    ensures m.Ends? && endings[m.p] != Raises ==>
              Underway(endings, outcomes[m.p - offset := endings[m.p]], offset, Played(b, m))
  {
    if m.Ends? && endings[m.p] != Raises {
      var after, now := Played(b, m), outcomes[m.p - offset := endings[m.p]];
      assert offset + |now| <= |endings|;
      forall j | 0 <= j < |now| && offset + j !in after.waiting && offset + j !in after.inFlight
        ensures now[j] == endings[offset + j] != Raises
      {
        if j == m.p - offset {
          assert now[j] == endings[m.p];
        } else {
          assert offset + j !in b.inFlight && now[j] == outcomes[j];
        }
      }
      assert Underway(endings, now, offset, after);
    }
  }

  lemma OneMove(
    start: Board, moves: seq<Move>, endings: seq<Outcome>, limit: nat, offset: nat, n: nat, k: nat)
    requires k < |moves| && Schedule(start, moves, endings, limit) && start == Fresh(offset, n)
    ensures BoardAfter(start, moves[..k + 1]) == Played(BoardAfter(start, moves[..k]), moves[k])
    ensures Flights(start, moves[..k + 1]) ==
            Flights(start, moves[..k]) + [Played(BoardAfter(start, moves[..k]), moves[k]).inFlight]
    ensures offset <= moves[k].p < offset + n
    ensures Stopped(moves[..k + 1], endings) <==>
            moves[k].Ends? && moves[k].p < |endings| && endings[moves[k].p] == Raises
  {
    assert moves[..k + 1][..k] == moves[..k];
    FitsPrefix(start, moves, endings, limit, k);
    FlightsStayInside(start, moves[..k], endings, limit);
  }

  lemma RaisedHere(
    start: Board, moves: seq<Move>, endings: seq<Outcome>, limit: nat, offset: nat, n: nat, k: nat)
    requires k < |moves| && Schedule(start, moves, endings, limit) && start == Fresh(offset, n)
    requires Stopped(moves[..k + 1], endings) && offset <= moves[k].p < offset + n <= |endings|
    ensures k + 1 == |moves| && moves[..k + 1] == moves && Raises in endings[offset..offset + n]
  {
    FitsPrefix(start, moves, endings, limit, k + 1);
    assert endings[offset..offset + n][moves[k].p - offset] == Raises;
  }

  lemma AllEnded(
    start: Board, moves: seq<Move>, endings: seq<Outcome>, limit: nat, offset: nat, outcomes: seq<Outcome>)
    requires Schedule(start, moves, endings, limit) && !Stopped(moves, endings)
    requires Underway(endings, outcomes, offset, BoardAfter(start, moves))
    ensures Unfinished(start, moves) == {} && outcomes == endings[offset..offset + |outcomes|] && Raises !in outcomes
  {
    var ends := endings[offset..offset + |outcomes|];
    assert forall i :: 0 <= i < |outcomes| ==> outcomes[i] == ends[i] != Raises;
  }

  datatype Ended = Clean | Raised | Cancelled

  // How many calls the first `j` batches have.
  function Before(batches: seq<seq<Call>>, j: nat): nat
    requires j <= |batches|
  {
    |Concat(batches[..j])|
  }

  function StartOf(batches: seq<seq<Call>>, j: nat): Board
    requires j < |batches|
  {
    Fresh(Before(batches, j), |batches[j]|)
  }

  // What was in flight in the first `n` batches.
  function FlightsUpTo(batches: seq<seq<Call>>, schedules: seq<seq<Move>>, n: nat): seq<set<nat>>
    requires n <= |batches| == |schedules|
  {
    if n == 0 then [] else FlightsUpTo(batches, schedules, n - 1) + Flights(StartOf(batches, n - 1), schedules[n - 1])
  }

  // One schedule for every batch of the round.
  ghost predicate Scheduled(
    batches: seq<seq<Call>>, endings: seq<Outcome>, limit: nat, schedules: seq<seq<Move>>)
  {
    && |schedules| == |batches| && |endings| == Before(batches, |batches|)
    && forall j :: 0 <= j < |schedules| ==> Schedule(StartOf(batches, j), schedules[j], endings, limit)
  }

  // How the calls of batch `j` end.
  function EndingsOf(batches: seq<seq<Call>>, endings: seq<Outcome>, j: nat): seq<Outcome>
    requires j < |batches| && Before(batches, j) + |batches[j]| <= |endings|
  {
    endings[Before(batches, j)..Before(batches, j) + |batches[j]|]
  }

  // The first `j` batches are not cancelled, and none of their calls raises.
  ghost predicate GoesWell(batches: seq<seq<Call>>, endings: seq<Outcome>, cancelled: set<nat>, j: nat)
    requires j <= |batches|
  {
    && (forall i :: 0 <= i < j ==> i !in cancelled)
    && Before(batches, j) <= |endings| && Raises !in endings[..Before(batches, j)]
  }

  // The first batch that does not go well, and why.
  ghost predicate EndsAt(
    batches: seq<seq<Call>>, endings: seq<Outcome>, cancelled: set<nat>, stop: nat, ended: Ended)
  {
    && stop <= |batches| && GoesWell(batches, endings, cancelled, stop)
    && (ended == Clean <==> stop == |batches|)
    && (ended == Cancelled <==> stop < |batches| && stop in cancelled)
    && (ended == Raised ==> Before(batches, stop) + |batches[stop]| <= |endings|
                            && Raises in EndingsOf(batches, endings, stop))
  }

  // The whole round, batch after batch, given how each call's dispatch ends and in what order
  // things happen; `cancelled` says before which batches the run is found cancelled. The
  // messages depend on the outcomes alone, not on who finished first.
  method DispatchMany(
    calls: seq<Call>, endings: seq<Outcome>, limit: nat, cancelled: set<nat>, schedules: seq<seq<Move>>)
    returns (messages: seq<Message>, stop: nat, ended: Ended, running: set<nat>, flights: seq<set<nat>>)
    requires |endings| == |calls| && Scheduled(BatchesOf(calls), endings, limit, schedules)
    ensures RoundEnds(calls, BatchesOf(calls), endings, cancelled, schedules, stop, ended, messages, running, flights)
  {
    var batches := Batches(calls);
    messages, stop, ended, running, flights := DispatchBatches(calls, batches, endings, limit, cancelled, schedules);
  }

  method DispatchBatches(
    calls: seq<Call>, batches: seq<seq<Call>>, endings: seq<Outcome>, limit: nat, cancelled: set<nat>,
    schedules: seq<seq<Move>>)
    returns (messages: seq<Message>, stop: nat, ended: Ended, running: set<nat>, flights: seq<set<nat>>)
    requires Batched(batches, calls) && |endings| == |calls| && Scheduled(batches, endings, limit, schedules)
    ensures RoundEnds(calls, batches, endings, cancelled, schedules, stop, ended, messages, running, flights)
  {
    hide *;
    messages, ended, running, flights := [], Clean, {}, [];
    var completed: nat := 0;
    stop := 0;
    RoundBegins(calls, batches, endings, limit, cancelled, schedules);
    while stop < |batches|
      invariant stop <= |batches| == |schedules|
      invariant RoundSoFar(calls, batches, endings, cancelled, schedules, stop, completed, messages, flights)
      decreases |batches| - stop
    {
      if stop in cancelled {
        EndsCancelled(calls, batches, endings, cancelled, schedules, stop, completed, messages, flights);
        return messages, stop, Cancelled, {}, flights;
      }
      var raised, left;
      raised, messages, left, flights := DispatchBatch(
        calls, batches, endings, limit, cancelled, schedules, stop, completed, messages, flights);
      if raised { return messages, stop, Raised, left, flights; }
      completed, stop := completed + |batches[stop]|, stop + 1;
    }
    EndsClean(calls, batches, endings, cancelled, schedules, completed, messages, flights);
  }

  // One more batch: either the round ends with it, or its answers are added.
  method DispatchBatch(
    calls: seq<Call>, batches: seq<seq<Call>>, endings: seq<Outcome>, limit: nat, ghost cancelled: set<nat>,
    schedules: seq<seq<Move>>, j: nat, completed: nat, had: seq<Message>, flown: seq<set<nat>>)
    returns (raised: bool, messages: seq<Message>, left: set<nat>, flights: seq<set<nat>>)
    requires Batched(batches, calls) && Scheduled(batches, endings, limit, schedules)
    requires j < |batches| && j !in cancelled
    requires RoundSoFar(calls, batches, endings, cancelled, schedules, j, completed, had, flown)
    ensures raised ==> RoundEnds(calls, batches, endings, cancelled, schedules, j, Raised, messages, left, flights)
    ensures !raised ==>
              RoundSoFar(calls, batches, endings, cancelled, schedules, j + 1, completed + |batches[j]|,
                         messages, flights)
  {
    hide Batched, Scheduled, RoundSoFar, Schedule, RoundEnds, Flights, Unfinished, Emitted, Fresh;
    ScheduledSizes(batches, endings, limit, schedules);
    NextBatch(calls, batches, endings, limit, cancelled, schedules, j, completed, had, flown);
    var results, more;
    results, raised, left, more := RunBatch(endings, completed, |batches[j]|, limit, schedules[j]);
    flights := flown + more;
    if raised {
      EndsRaised(calls, batches, endings, cancelled, schedules, j, completed, had, flown);
      messages := had;
    } else {
      BatchWentWell(calls, batches, endings, cancelled, schedules, j, completed, had, flown);
      var answered := Answers(batches[j], results);
      messages := had + answered;
    }
  }

  // The round after its first `j` batches.
  ghost predicate RoundSoFar(
    calls: seq<Call>, batches: seq<seq<Call>>, endings: seq<Outcome>, cancelled: set<nat>, schedules: seq<seq<Move>>,
    j: nat, completed: nat, messages: seq<Message>, flights: seq<set<nat>>)
  {
    && j <= |batches| == |schedules| && completed == Before(batches, j) <= |calls| == |endings|
    && GoesWell(batches, endings, cancelled, j)
    && messages == Emitted(calls[..completed], endings[..completed])
    && flights == FlightsUpTo(batches, schedules, j)
  }

  // The round when it is over: where it stopped and why, what it emitted, what was in flight
  // and what is left running.
  ghost predicate RoundEnds(
    calls: seq<Call>, batches: seq<seq<Call>>, endings: seq<Outcome>, cancelled: set<nat>, schedules: seq<seq<Move>>,
    stop: nat, ended: Ended, messages: seq<Message>, running: set<nat>, flights: seq<set<nat>>)
  {
    && EndsAt(batches, endings, cancelled, stop, ended) && |schedules| == |batches|
    && Before(batches, stop) <= |calls| == |endings|
    && messages == Emitted(calls[..Before(batches, stop)], endings[..Before(batches, stop)])
    && (ended == Raised ==> stop < |batches|)
    && flights == FlightsUpTo(batches, schedules, if ended == Raised then stop + 1 else stop)
    && running == if ended == Raised then Unfinished(StartOf(batches, stop), schedules[stop]) else {}
  }

  lemma RoundBegins(
    calls: seq<Call>, batches: seq<seq<Call>>, endings: seq<Outcome>, limit: nat, cancelled: set<nat>,
    schedules: seq<seq<Move>>)
    requires |endings| == |calls| && Scheduled(batches, endings, limit, schedules)
    ensures |schedules| == |batches| && RoundSoFar(calls, batches, endings, cancelled, schedules, 0, 0, [], [])
  {
  }

  lemma EndsCancelled(
    calls: seq<Call>, batches: seq<seq<Call>>, endings: seq<Outcome>, cancelled: set<nat>, schedules: seq<seq<Move>>,
    j: nat, completed: nat, messages: seq<Message>, flights: seq<set<nat>>)
    requires RoundSoFar(calls, batches, endings, cancelled, schedules, j, completed, messages, flights)
    requires j < |batches| && j in cancelled
    ensures RoundEnds(calls, batches, endings, cancelled, schedules, j, Cancelled, messages, {}, flights)
  {
  }

  lemma EndsRaised(
    calls: seq<Call>, batches: seq<seq<Call>>, endings: seq<Outcome>, cancelled: set<nat>, schedules: seq<seq<Move>>,
    j: nat, completed: nat, messages: seq<Message>, flights: seq<set<nat>>)
    requires RoundSoFar(calls, batches, endings, cancelled, schedules, j, completed, messages, flights)
    requires j < |batches| && j !in cancelled && completed + |batches[j]| <= |endings|
    requires Raises in endings[completed..completed + |batches[j]|]
    ensures var start := Fresh(completed, |batches[j]|);
            RoundEnds(calls, batches, endings, cancelled, schedules, j, Raised, messages,
                      Unfinished(start, schedules[j]), flights + Flights(start, schedules[j]))
  {
    hide Flights, Unfinished, Emitted, Fresh, GoesWell, Concat;
  }

  lemma EndsClean(
    calls: seq<Call>, batches: seq<seq<Call>>, endings: seq<Outcome>, cancelled: set<nat>, schedules: seq<seq<Move>>,
    completed: nat, messages: seq<Message>, flights: seq<set<nat>>)
    requires RoundSoFar(calls, batches, endings, cancelled, schedules, |batches|, completed, messages, flights)
    ensures RoundEnds(calls, batches, endings, cancelled, schedules, |batches|, Clean, messages, {}, flights)
  {
  }

  // The loop that turns one batch's results into messages, in call order.
  method Answers(batch: seq<Call>, results: seq<Outcome>) returns (messages: seq<Message>)
    requires |batch| == |results|
    ensures messages == Emitted(batch, results)
  {
    messages := [];
    for i := 0 to |batch|
      invariant messages == Emitted(batch[..i], results[..i])
    {
      assert batch[..i + 1][..i] == batch[..i] && results[..i + 1][..i] == results[..i];
      if results[i].Answer? {
        messages := messages + [Message(batch[i].id, results[i].text)];
      }
    }
    assert batch[..|batch|] == batch && results[..|batch|] == results;
  }

  lemma BatchAt(batches: seq<seq<Call>>, calls: seq<Call>, j: nat, completed: nat)
    requires Batched(batches, calls) && j < |batches|
    requires completed <= |calls| && calls[..completed] == Concat(batches[..j])
    ensures completed + |batches[j]| <= |calls|
    ensures batches[j] == calls[completed..completed + |batches[j]|]
    ensures calls[..completed + |batches[j]|] == calls[..completed] + batches[j] == Concat(batches[..j + 1])
    ensures |batches[j]| == 1 || AllReadOnly(batches[j])
  {
    assert batches[..j + 1][..j] == batches[..j];
    assert batches[j] in batches;
    hide AllReadOnly;
    ConcatPrefix(batches, j + 1);
    var upTo := Concat(batches[..j + 1]);
    assert upTo == calls[..completed] + batches[j];
    assert calls[..|upTo|] == upTo;
  }

  lemma {:induction false} ConcatPrefix(batches: seq<seq<Call>>, j: nat)
    requires j <= |batches|
    ensures Concat(batches[..j]) <= Concat(batches)
    decreases |batches| - j
  {
    if j == |batches| {
      assert batches[..j] == batches;
    } else {
      assert batches[..j + 1][..j] == batches[..j];
      ConcatPrefix(batches, j + 1);
    }
  }

  lemma BatchRange(calls: seq<Call>, batches: seq<seq<Call>>, j: nat)
    requires Batched(batches, calls) && j < |batches|
    ensures var from, to := Before(batches, j), Before(batches, j + 1);
            && to == from + |batches[j]| <= |calls| && batches[j] == calls[from..to] && batches[j] != []
            && (|batches[j]| == 1 || AllReadOnly(batches[j]))
  {
    assert batches[j] in batches;
    assert calls[..Before(batches, j)] == Concat(batches[..j]) by { ConcatPrefix(batches, j); }
    hide AllReadOnly;
    BatchAt(batches, calls, j, Before(batches, j));
  }

  lemma {:induction false} NextBatch(
    calls: seq<Call>, batches: seq<seq<Call>>, endings: seq<Outcome>, limit: nat, cancelled: set<nat>,
    schedules: seq<seq<Move>>, j: nat, completed: nat, messages: seq<Message>, flights: seq<set<nat>>)
    requires Batched(batches, calls) && Scheduled(batches, endings, limit, schedules) && j < |batches|
    requires RoundSoFar(calls, batches, endings, cancelled, schedules, j, completed, messages, flights)
    ensures completed + |batches[j]| <= |calls| == |endings|
    ensures Schedule(Fresh(completed, |batches[j]|), schedules[j], endings, limit)
  {
    hide Batched, Schedule, Flights, Emitted, Before, Fresh, GoesWell, AllReadOnly;
    BatchRange(calls, batches, j);
    ScheduleFits(batches, endings, limit, schedules, j);
  }

  lemma {:induction false} BatchWentWell(
    calls: seq<Call>, batches: seq<seq<Call>>, endings: seq<Outcome>, cancelled: set<nat>, schedules: seq<seq<Move>>,
    j: nat, completed: nat, messages: seq<Message>, flights: seq<set<nat>>)
    requires Batched(batches, calls) && j < |batches| && j !in cancelled
    requires RoundSoFar(calls, batches, endings, cancelled, schedules, j, completed, messages, flights)
    requires completed + |batches[j]| <= |endings| && Raises !in endings[completed..completed + |batches[j]|]
    ensures RoundSoFar(calls, batches, endings, cancelled, schedules, j + 1, completed + |batches[j]|,
                       messages + Emitted(batches[j], endings[completed..completed + |batches[j]|]),
                       flights + Flights(Fresh(completed, |batches[j]|), schedules[j]))
  {
    hide Batched, Before, Emitted, Flights, Fresh, GoesWell, AllReadOnly;
    var to := completed + |batches[j]|;
    BatchRange(calls, batches, j);
    StillGoesWell(batches, endings, cancelled, j);
    EmittedUpTo(calls, endings, completed, to);
  }

  lemma StillGoesWell(batches: seq<seq<Call>>, endings: seq<Outcome>, cancelled: set<nat>, j: nat)
    requires j < |batches| && j !in cancelled && GoesWell(batches, endings, cancelled, j)
    requires Before(batches, j + 1) == Before(batches, j) + |batches[j]| <= |endings|
    requires Raises !in endings[Before(batches, j)..Before(batches, j + 1)]
    ensures GoesWell(batches, endings, cancelled, j + 1)
  {
    hide Before;
    var from, to := Before(batches, j), Before(batches, j + 1);
    assert endings[..to] == endings[..from] + endings[from..to];
  }

  lemma EmittedUpTo(calls: seq<Call>, endings: seq<Outcome>, from: nat, to: nat)
    requires from <= to <= |calls| == |endings|
    ensures Emitted(calls[..to], endings[..to]) ==
            Emitted(calls[..from], endings[..from]) + Emitted(calls[from..to], endings[from..to])
  {
    hide Emitted;
    assert endings[..to] == endings[..from] + endings[from..to];
    assert calls[..to] == calls[..from] + calls[from..to];
    EmittedConcat(calls[..from], endings[..from], calls[from..to], endings[from..to]);
  }

  // A round that ends cleanly has answered for every call.
  lemma {:induction false} CleanRoundIsWhole(calls: seq<Call>)
    ensures Before(BatchesOf(calls), |BatchesOf(calls)|) == |calls|
  {
    hide BatchesOf, AllReadOnly, Apart;
    BatchesOfIsBatched(calls);
    assert BatchesOf(calls)[..|BatchesOf(calls)|] == BatchesOf(calls);
  }

  // ---- What every schedule keeps ---------------------------------------------------------

  // At every moment of every schedule the calls in flight are one call or only read-only ones,
  // and no more than the limit.
  lemma {:induction false} FlightsAreSafe(
    calls: seq<Call>, batches: seq<seq<Call>>, endings: seq<Outcome>, limit: nat, schedules: seq<seq<Move>>, n: nat)
    requires Batched(batches, calls) && Scheduled(batches, endings, limit, schedules) && n <= |batches|
    ensures AllSafe(FlightsUpTo(batches, schedules, n), calls, limit)
  {
    hide Batched, Scheduled, Flights;
    if n > 0 {
      assert |schedules| == |batches| by { ScheduledSizes(batches, endings, limit, schedules); }
      FlightsAreSafe(calls, batches, endings, limit, schedules, n - 1);
      BatchIsSafe(calls, batches, endings, limit, schedules, n - 1);
    }
  }

  lemma ScheduledSizes(batches: seq<seq<Call>>, endings: seq<Outcome>, limit: nat, schedules: seq<seq<Move>>)
    requires Scheduled(batches, endings, limit, schedules)
    ensures |schedules| == |batches|
  {
  }

  lemma {:induction false} BatchIsSafe(
    calls: seq<Call>, batches: seq<seq<Call>>, endings: seq<Outcome>, limit: nat, schedules: seq<seq<Move>>, j: nat)
    requires Batched(batches, calls) && Scheduled(batches, endings, limit, schedules) && j < |batches|
    ensures |schedules| == |batches| && AllSafe(Flights(StartOf(batches, j), schedules[j]), calls, limit)
  {
    hide Batched, Schedule, Scheduled, Fits, Flights, Before, AllSafe, AllReadOnly;
    BatchRange(calls, batches, j);
    ScheduleFits(batches, endings, limit, schedules, j);
    FlightsStayInside(StartOf(batches, j), schedules[j], endings, limit);
    SafeInside(calls, Flights(StartOf(batches, j), schedules[j]), Before(batches, j), |batches[j]|, limit);
  }

  lemma ScheduleFits(
    batches: seq<seq<Call>>, endings: seq<Outcome>, limit: nat, schedules: seq<seq<Move>>, j: nat)
    requires Scheduled(batches, endings, limit, schedules) && j < |batches|
    ensures |schedules| == |batches| && Schedule(StartOf(batches, j), schedules[j], endings, limit)
    ensures Fits(StartOf(batches, j), schedules[j], endings, limit)
  {
  }

  lemma SafeInside(calls: seq<Call>, flights: seq<set<nat>>, from: nat, n: nat, limit: nat)
    requires from + n <= |calls| && (n == 1 || AllReadOnly(calls[from..from + n]))
    requires forall f :: f in flights ==> |f| <= limit && f <= Positions(from, n)
    ensures AllSafe(flights, calls, limit)
  {
    forall f | f in flights ensures SafeTogether(calls, f) {
      if n == 1 {
        AtMostOne(f, Positions(from, 1));
      } else {
        forall p | p in f ensures calls[p].readOnly {
          assert calls[p] == calls[from..from + n][p - from];
        }
      }
    }
  }

  // Every call of a batch that went well has been in flight.
  lemma {:induction false} CompletedCallsFly(
    calls: seq<Call>, batches: seq<seq<Call>>, endings: seq<Outcome>, limit: nat, schedules: seq<seq<Move>>, n: nat,
    p: nat)
    requires Batched(batches, calls) && |endings| == |calls| && Scheduled(batches, endings, limit, schedules)
    requires n <= |batches| && GoesWell(batches, endings, {}, n) && p < Before(batches, n)
    ensures exists f :: f in FlightsUpTo(batches, schedules, n) && p in f
  {
    hide Batched, Before, Flights, Schedule, Scheduled, GoesWell;
    if n == 0 {
      NothingBefore(batches);
    } else {
      ScheduledSizes(batches, endings, limit, schedules);
      BatchRange(calls, batches, n - 1);
      WentWellBefore(batches, endings, n - 1);
      if p < Before(batches, n - 1) {
        CompletedCallsFly(calls, batches, endings, limit, schedules, n - 1, p);
      } else {
        BatchFlies(batches, endings, limit, schedules, n - 1, p);
      }
    }
  }

  lemma NothingBefore(batches: seq<seq<Call>>)
    ensures Before(batches, 0) == 0
  {
  }

  lemma WentWellBefore(batches: seq<seq<Call>>, endings: seq<Outcome>, j: nat)
    requires j < |batches| && GoesWell(batches, endings, {}, j + 1)
    requires Before(batches, j + 1) == Before(batches, j) + |batches[j]|
    ensures GoesWell(batches, endings, {}, j) && Before(batches, j + 1) <= |endings|
    ensures Raises !in endings[..Before(batches, j) + |batches[j]|]
  {
    hide Before;
    var from, to := Before(batches, j), Before(batches, j + 1);
    assert endings[..from] == endings[..to][..from];
  }

  lemma BatchFlies(
    batches: seq<seq<Call>>, endings: seq<Outcome>, limit: nat, schedules: seq<seq<Move>>, j: nat, p: nat)
    requires Scheduled(batches, endings, limit, schedules) && j < |batches|
    requires Before(batches, j) <= p < Before(batches, j) + |batches[j]| <= |endings|
    requires Raises !in endings[..Before(batches, j) + |batches[j]|]
    ensures exists f :: f in Flights(StartOf(batches, j), schedules[j]) && p in f
  {
    var start, to := StartOf(batches, j), Before(batches, j) + |batches[j]|;
    forall q | q in start.waiting ensures q < |endings| && endings[q] != Raises {
      assert endings[..to][q] == endings[q];
    }
    NotStopped(start, schedules[j], endings, limit);
    StartedCallsFly(start, schedules[j], endings, limit, p);
  }

  // Only read-only calls outlive a round: a call left running has a sibling that raised.
  lemma {:induction false} OnlyReadersRunOn(
    calls: seq<Call>, batches: seq<seq<Call>>, endings: seq<Outcome>, limit: nat, schedules: seq<seq<Move>>, j: nat,
    p: nat)
    requires Batched(batches, calls) && Scheduled(batches, endings, limit, schedules) && j < |batches|
    requires p in Unfinished(StartOf(batches, j), schedules[j])
    ensures Before(batches, j) <= p < Before(batches, j) + |batches[j]| <= |calls| && calls[p].readOnly
    ensures Stopped(schedules[j], endings)
  {
    hide Batched, Before, Schedule, Fits, Scheduled, AllReadOnly, Unfinished, Fresh, Stopped;
    BatchRange(calls, batches, j);
    ScheduleFits(batches, endings, limit, schedules, j);
    LeftInBatch(calls, batches[j], Before(batches, j), schedules[j], endings, limit, p);
  }

  lemma LeftInBatch(
    calls: seq<Call>, batch: seq<Call>, from: nat, moves: seq<Move>, endings: seq<Outcome>, limit: nat, p: nat)
    requires from + |batch| <= |calls| && batch == calls[from..from + |batch|] && (|batch| == 1 || AllReadOnly(batch))
    requires Schedule(Fresh(from, |batch|), moves, endings, limit) && p in Unfinished(Fresh(from, |batch|), moves)
    ensures from <= p < from + |batch| && calls[p].readOnly && Stopped(moves, endings)
  {
    hide BoardAfter, AllReadOnly, Fits, Positions;
    var start := Fresh(from, |batch|);
    FlightsStayInside(start, moves, endings, limit);
    RaisedIsGone(start, moves, endings, limit);
    NotAlone(calls, batch, from, p, moves[|moves| - 1].p);
  }

  lemma NotAlone(calls: seq<Call>, batch: seq<Call>, from: nat, p: nat, q: nat)
    requires from + |batch| <= |calls| && batch == calls[from..from + |batch|] && (|batch| == 1 || AllReadOnly(batch))
    requires from <= p < from + |batch| && from <= q < from + |batch| && p != q
    ensures calls[p].readOnly
  {
    assert calls[p] == batch[p - from];
  }

  lemma AtMostOne(f: set<nat>, one: set<nat>)
    requires f <= one && |one| == 1
    ensures |f| <= 1
  {
    if f != {} {
      var p :| p in f;
      assert |one - {p}| == 0;
      assert f == {p};
    }
  }

  lemma {:induction false} EmittedConcat(a: seq<Call>, x: seq<Outcome>, b: seq<Call>, y: seq<Outcome>)
    requires |a| == |x| && |b| == |y|
    ensures Emitted(a + b, x + y) == Emitted(a, x) + Emitted(b, y)
  {
    if b == [] {
      assert a + b == a && x + y == x;
    } else {
      var n := |b| - 1;
      assert (a + b)[..|a + b| - 1] == a + b[..n] && (x + y)[..|a + b| - 1] == x + y[..n];
      EmittedConcat(a, x, b[..n], y[..n]);
    }
  }
}
