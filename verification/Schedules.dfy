// The order in which the calls of one batch start and end, which is up to the event loop
// (the semaphore and asyncio.gather of dispatch_many in max_ai/core/tool/dispatcher.py).
module Schedules {

  // How one dispatch ends: an answer, None (approval or input pending), or an exception.
  datatype Outcome = Answer(text: string) | Pending | Raises

  function Positions(offset: nat, n: nat): (ps: set<nat>)
    ensures forall p :: p in ps <==> offset <= p < offset + n
    ensures |ps| == n
  {
    if n == 0 then {} else Positions(offset, n - 1) + {offset + n - 1}
  }

  // When the calls of a batch start and end is up to the event loop: a call, by its position in
  // the round, starts or its dispatch ends.
  datatype Move = Starts(p: nat) | Ends(p: nat)

  // The calls not started yet, and those in flight.
  datatype Board = Board(waiting: set<nat>, inFlight: set<nat>)

  function Played(b: Board, m: Move): Board {
    match m
    case Starts(p) => Board(b.waiting - {p}, b.inFlight + {p})
    case Ends(p) => Board(b.waiting, b.inFlight - {p})
  }

  function BoardAfter(start: Board, moves: seq<Move>): Board {
    if moves == [] then start else Played(BoardAfter(start, moves[..|moves| - 1]), moves[|moves| - 1])
  }

  // What was in flight after every move.
  function Flights(start: Board, moves: seq<Move>): seq<set<nat>> {
    if moves == [] then [] else Flights(start, moves[..|moves| - 1]) + [BoardAfter(start, moves).inFlight]
  }

  // A waiting call starts when fewer than `limit` are in flight, and a call in flight may end.
  predicate Legal(b: Board, m: Move, limit: nat) {
    match m
    case Starts(p) => p in b.waiting && |b.inFlight| < limit
    case Ends(p) => p in b.inFlight
  }

  // The last call to end has raised.
  predicate Stopped(moves: seq<Move>, endings: seq<Outcome>) {
    && moves != [] && moves[|moves| - 1].Ends?
    && moves[|moves| - 1].p < |endings| && endings[moves[|moves| - 1].p] == Raises
  }

  predicate Fits(start: Board, moves: seq<Move>, endings: seq<Outcome>, limit: nat) {
    moves == [] ||
    var early := moves[..|moves| - 1];
    Fits(start, early, endings, limit) && !Stopped(early, endings)
    && Legal(BoardAfter(start, early), moves[|moves| - 1], limit)
  }

  // A batch goes on until all its calls have ended, or one of them raises.
  predicate Schedule(start: Board, moves: seq<Move>, endings: seq<Outcome>, limit: nat) {
    Fits(start, moves, endings, limit) && (Stopped(moves, endings) || BoardAfter(start, moves) == Board({}, {}))
  }

  // A batch of `n` calls before anything has happened.
  function Fresh(offset: nat, n: nat): Board {
    Board(Positions(offset, n), {})
  }

  function Unfinished(start: Board, moves: seq<Move>): set<nat> {
    BoardAfter(start, moves).waiting + BoardAfter(start, moves).inFlight
  }

  lemma FitsOneMore(start: Board, moves: seq<Move>, m: Move, endings: seq<Outcome>, limit: nat)
    requires Fits(start, moves, endings, limit) && !Stopped(moves, endings)
    requires Legal(BoardAfter(start, moves), m, limit)
    ensures Fits(start, moves + [m], endings, limit)
    ensures BoardAfter(start, moves + [m]) == Played(BoardAfter(start, moves), m)
  {
    assert (moves + [m])[..|moves|] == moves;
  }

  lemma {:induction false} FitsPrefix(start: Board, moves: seq<Move>, endings: seq<Outcome>, limit: nat, k: nat)
    requires Fits(start, moves, endings, limit) && k <= |moves|
    ensures Fits(start, moves[..k], endings, limit)
    ensures k < |moves| ==> !Stopped(moves[..k], endings) && Legal(BoardAfter(start, moves[..k]), moves[k], limit)
    decreases |moves|
  {
    if k == |moves| {
      assert moves[..k] == moves;
    } else {
      FitsPrefix(start, moves[..|moves| - 1], endings, limit, k);
      assert moves[..|moves| - 1][..k] == moves[..k];
    }
  }

  // No schedule has more than `limit` calls in flight, or calls of another batch.
  lemma {:induction false} FlightsStayInside(start: Board, moves: seq<Move>, endings: seq<Outcome>, limit: nat)
    requires Fits(start, moves, endings, limit) && start.inFlight == {}
    ensures Unfinished(start, moves) <= start.waiting && |BoardAfter(start, moves).inFlight| <= limit
    ensures forall f :: f in Flights(start, moves) ==> |f| <= limit && f <= start.waiting
  {
    if moves != [] {
      FlightsStayInside(start, moves[..|moves| - 1], endings, limit);
    }
  }

  // Every call that is no longer waiting has been in flight.
  lemma {:induction false} StartedCallsFly(
    start: Board, moves: seq<Move>, endings: seq<Outcome>, limit: nat, p: nat)
    requires Fits(start, moves, endings, limit) && p in start.waiting && p !in BoardAfter(start, moves).waiting
    ensures exists f :: f in Flights(start, moves) && p in f
  {
    var early := moves[..|moves| - 1];
    if p in BoardAfter(start, early).waiting {
      assert p in BoardAfter(start, moves).inFlight;
    } else {
      StartedCallsFly(start, early, endings, limit, p);
      var f :| f in Flights(start, early) && p in f;
      assert f in Flights(start, moves);
    }
  }

  // A call left running has a sibling that raised, and that one has ended.
  lemma RaisedIsGone(start: Board, moves: seq<Move>, endings: seq<Outcome>, limit: nat)
    requires Schedule(start, moves, endings, limit) && start.inFlight == {} && Unfinished(start, moves) != {}
    ensures Stopped(moves, endings) && moves[|moves| - 1].p in start.waiting
    ensures moves[|moves| - 1].p !in Unfinished(start, moves)
  {
    var early := moves[..|moves| - 1];
    FlightsStayInside(start, early, endings, limit);
    WaitingIsNotFlying(start, early, endings, limit);
  }

  lemma {:induction false} WaitingIsNotFlying(start: Board, moves: seq<Move>, endings: seq<Outcome>, limit: nat)
    requires Fits(start, moves, endings, limit) && start.inFlight == {}
    ensures BoardAfter(start, moves).waiting !! BoardAfter(start, moves).inFlight
  {
    if moves != [] {
      WaitingIsNotFlying(start, moves[..|moves| - 1], endings, limit);
    }
  }

  // A batch in which no call raises runs to its end.
  lemma NotStopped(start: Board, moves: seq<Move>, endings: seq<Outcome>, limit: nat)
    requires Schedule(start, moves, endings, limit) && start.inFlight == {}
    requires forall p :: p in start.waiting ==> p < |endings| && endings[p] != Raises
    ensures BoardAfter(start, moves) == Board({}, {})
  {
    if Stopped(moves, endings) {
      FlightsStayInside(start, moves[..|moves| - 1], endings, limit);
    }
  }

  // There is always a schedule: one call after the other.
  lemma SomeSchedule(offset: nat, n: nat, endings: seq<Outcome>, limit: nat) returns (moves: seq<Move>)
    requires limit > 0
    ensures Schedule(Fresh(offset, n), moves, endings, limit)
  {
    moves := Completed(Fresh(offset, n), [], endings, limit, offset, n);
  }

  lemma {:induction false} Completed(
    start: Board, moves: seq<Move>, endings: seq<Outcome>, limit: nat, p: nat, m: nat) returns (all: seq<Move>)
    requires Sequential(start, moves, endings, limit, p, m) && limit > 0
    ensures Schedule(start, all, endings, limit)
    decreases m
  {
    all := moves;
    if m > 0 {
      OneAfterTheOther(start, moves, endings, limit, p, m);
      hide Sequential, Fits;
      all := moves + [Starts(p)] + [Ends(p)];
      if !Stopped(all, endings) { all := Completed(start, all, endings, limit, p + 1, m - 1); }
    }
  }

  // All earlier calls have ended well, and `m` calls from `p` on are waiting.
  ghost predicate Sequential(start: Board, moves: seq<Move>, endings: seq<Outcome>, limit: nat, p: nat, m: nat) {
    && Fits(start, moves, endings, limit) && !Stopped(moves, endings)
    && BoardAfter(start, moves) == Board(Positions(p, m), {})
  }

  lemma OneAfterTheOther(start: Board, moves: seq<Move>, endings: seq<Outcome>, limit: nat, p: nat, m: nat)
    requires Sequential(start, moves, endings, limit, p, m) && m > 0 && limit > 0
    ensures var more := moves + [Starts(p)] + [Ends(p)];
            && Fits(start, more, endings, limit)
            && (!Stopped(more, endings) ==> Sequential(start, more, endings, limit, p + 1, m - 1))
  {
    hide Fits, BoardAfter;
    FitsOneMore(start, moves, Starts(p), endings, limit);
    var begun := moves + [Starts(p)];
    assert BoardAfter(start, begun) == Board(Positions(p, m) - {p}, {p});
    FitsOneMore(start, begun, Ends(p), endings, limit);
    assert Positions(p, m) - {p} == Positions(p + 1, m - 1) && {p} - {p} == {};
  }
}
