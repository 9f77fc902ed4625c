// Exactly when a lease is handed out and on which session, and what becomes of the session when
// the lease ends or its entry is retired, in terms of the provider's answers
// (max_ai/core/environment/manager.py).
module HandOuts {
  import opened Common
  import opened Manager
  import opened ManagerRuns

  // ---- Hand-outs -------------------------------------------------------------------------

  // A session that is there is brought up to date, or its loss is made good by a new one.
  predicate BroughtIn(a: Acquiring) {
    a.syncIn == Fine || (a.syncIn == Lost && Replaced(a))
  }

  predicate Replaced(a: Acquiring) {
    a.reconnects && a.syncInAgain == Fine
  }

  // What the provider has to answer: to connect when the key holds no session; to bring back
  // first what an earlier lease could not, or report it lost; and to sync the workspace in.
  predicate Provides(held: bool, failedBefore: bool, a: Acquiring) {
    if !held then a.connects && BroughtIn(a)
    else if !failedBefore then BroughtIn(a)
    else (a.recover == Fine && BroughtIn(a)) || (a.recover == Lost && Replaced(a))
  }

  // The session the key holds is itself synced in.
  predicate Kept(held: bool, failedBefore: bool, a: Acquiring) {
    held && (failedBefore ==> a.recover == Fine) && a.syncIn == Fine
  }

  // The session the key holds is reported lost on the way.
  predicate LostOnTheWay(held: bool, failedBefore: bool, a: Acquiring) {
    held && if failedBefore && a.recover != Fine then a.recover == Lost else a.syncIn == Lost
  }

  // In every run: an open manager hands out a lease to a user who has none exactly when the
  // provider does its part; to anybody else it does nothing at all.
  lemma {:induction false} HandsOutIff(events: seq<Event>, k: Key, a: Acquiring)
    ensures var w := After(events);
            k !in w.leased ==>
              (k in Next(w, Acquires(k, a)).leased
               <==> !w.closed && k.user !in w.locked && Provides(SessionOf(w, k).Some?, k in w.errors, a))
    ensures var w := After(events);
            w.closed || k.user in w.locked ==> Next(w, Acquires(k, a)) == w
  {
    AlwaysInv(events);
    assert Settled(After(events), k);
  }

  // It hands out the session the key holds exactly when that was synced in. Otherwise the
  // session is new, and the one held, if any, was reported lost.
  lemma {:induction false} HandsOutSession(events: seq<Event>, k: Key, a: Acquiring)
    requires k !in After(events).leased && k in Next(After(events), Acquires(k, a)).leased
    ensures var w, v := After(events), Next(After(events), Acquires(k, a));
            var held, failed := SessionOf(w, k).Some?, k in w.errors;
            && SessionOf(v, k).Some? && k.user in v.locked && !EntryOf(v, k).idle && k !in v.errors
            && (SessionOf(v, k) == SessionOf(w, k) <==> Kept(held, failed, a))
            && (!Kept(held, failed, a) ==>
                  SessionOf(v, k).value >= w.next && (held ==> LostOnTheWay(held, failed, a)))
  {
    AlwaysInv(events);
    assert Settled(After(events), k);
    PreparedSession(After(events), k, a);
    hide Prepare;
  }

  lemma PreparedSession(w: World, k: Key, a: Acquiring)
    requires (forall j :: SessionOf(w, j).Some? ==> SessionOf(w, j).value < w.next)
    requires k in w.errors ==> SessionOf(w, k).Some?
    ensures var (v, ready) := Prepare(w, k, a);
            var held, failed := SessionOf(w, k).Some?, k in w.errors;
            && v.locked == w.locked && v.leased == w.leased
            && (ready ==>
                  && SessionOf(v, k).Some? && !EntryOf(v, k).idle && k !in v.errors
                  && (SessionOf(v, k) == SessionOf(w, k) <==> Kept(held, failed, a))
                  && (!Kept(held, failed, a) ==>
                        SessionOf(v, k).value >= w.next && (held ==> LostOnTheWay(held, failed, a))))
  {
  }

  // An acquire that fails leaves no lease and no lock behind, and keeps the session the key held,
  // with its recorded failure if that was not made good, unless it was reported lost.
  lemma {:induction false} FailedAcquireKeeps(events: seq<Event>, k: Key, a: Acquiring)
    requires k !in After(events).leased && k !in Next(After(events), Acquires(k, a)).leased
    ensures var w, v := After(events), Next(After(events), Acquires(k, a));
            var held, failed := SessionOf(w, k).Some?, k in w.errors;
            && v.leased == w.leased && v.locked == w.locked
            && (held && !w.closed && k.user !in w.locked && !LostOnTheWay(held, failed, a) ==>
                  SessionOf(v, k) == SessionOf(w, k) && (k in v.errors <==> failed && a.recover != Fine))
  {
    AlwaysInv(events);
    assert Settled(After(events), k);
  }

  // ---- The end of a lease ----------------------------------------------------------------

  // Disconnecting gets through: the changes are back or the sandbox is gone, and its cleaning
  // did not fail.
  predicate Leaves(o: Leaving) {
    (o.sync == Lost || (o.sync == Fine && o.disconnect == Fine)) && o.clean != Fails
  }

  // Its last step finds the sandbox gone, after everything was brought back.
  predicate GoneAtLast(o: Leaving) {
    o.sync == Fine && o.disconnect == Lost
  }

  // In every run, the end of a lease gives back the user's lock, and leaves:
  // the session idle, after a successful sync back;
  // no session, when the sandbox was lost or a cancelled lease could be disconnected;
  // the session with a recorded failure, when either of the two failed;
  // and the session as it is, when the release was itself cancelled.
  lemma {:induction false} LeaseEnds(events: seq<Event>, k: Key, ending: Ending)
    requires k in After(events).leased
    ensures var w, v := After(events), Next(After(events), Releases(k, ending));
            && k !in v.leased && k.user !in v.locked && SessionOf(w, k).Some?
            && (match ending
                case Normally(Fine) => SessionOf(v, k) == SessionOf(w, k) && k !in v.errors && EntryOf(v, k).idle
                case Normally(Lost) => SessionOf(v, k) == None && k !in v.errors
                case Normally(Fails) => SessionOf(v, k) == SessionOf(w, k) && k in v.errors && !EntryOf(v, k).idle
                case SandboxLost => SessionOf(v, k) == None && k !in v.errors
                case Cancelled(o) =>
                  if Leaves(o) || GoneAtLast(o) then SessionOf(v, k) == None && k !in v.errors
                  else SessionOf(v, k) == SessionOf(w, k) && k in v.errors && !EntryOf(v, k).idle
                case Interrupted(_) =>
                  SessionOf(v, k) == SessionOf(w, k) && k !in v.errors && !EntryOf(v, k).idle)
  {
    AlwaysInv(events);
    assert Settled(After(events), k);
    assert OneLeasePerUser(After(events));
  }

  // In every run, an idle session of a user without a lease expires, and a closed manager
  // retires any session: it is gone exactly when disconnecting it gets through, and otherwise
  // kept with a recorded failure. An entry that is not idle does not expire.
  lemma {:induction false} RetiresIff(events: seq<Event>, k: Key, o: Leaving, closing: bool)
    requires k.user !in After(events).locked && SessionOf(After(events), k).Some?
    requires if closing then After(events).closed else EntryOf(After(events), k).idle
    ensures var w := After(events);
            var v := Next(w, if closing then Closes(k, o) else Expires(k, o));
            && (SessionOf(v, k) == None <==> Leaves(o))
            && (SessionOf(v, k) != None ==> SessionOf(v, k) == SessionOf(w, k))
            && (k in v.errors <==> !Leaves(o)) && !EntryOf(v, k).idle
  {
    AlwaysInv(events);
    assert Settled(After(events), k);
  }

  lemma {:induction false} OnlyIdleExpires(events: seq<Event>, k: Key, o: Leaving)
    ensures !EntryOf(After(events), k).idle ==> Next(After(events), Expires(k, o)) == After(events)
  {
  }

  // A session turns idle by a release with a successful sync back, and by nothing else.
  lemma {:induction false} TurnsIdleIff(events: seq<Event>, e: Event, k: Key)
    requires !EntryOf(After(events), k).idle
    ensures EntryOf(Next(After(events), e), k).idle <==> e == Releases(k, Normally(Fine)) && k in After(events).leased
  {
    AlwaysInv(events);
    var w := After(events);
    assert Settled(w, k);
    if !e.MarksClosed? { assert Settled(w, e.k); }
    match e {
      case Acquires(j, a) => AcquiringIsNotIdle(w, j, a, k);
      case Releases(j, ending) => ReleaseTurnsIdle(w, j, ending, k);
      case Expires(j, o) => RetiringIsNotIdle(w, j, o, k);
      case Closes(j, o) => RetiringIsNotIdle(w, j, o, k);
      case MarksClosed =>
    }
  }

  lemma AcquiringIsNotIdle(w: World, j: Key, a: Acquiring, k: Key)
    requires Inv(w) && Settled(w, j) && !EntryOf(w, k).idle
    ensures !EntryOf(Next(w, Acquires(j, a)), k).idle
  {
    if j.user !in w.locked && !w.closed {
      PrepareKeeps(w, j, a);
      hide Prepare, Core;
      assert Quiet(Prepare(w, j, a).0, j) && Touches(w, Prepare(w, j, a).0, j);
    }
  }

  lemma ReleaseTurnsIdle(w: World, j: Key, ending: Ending, k: Key)
    requires Inv(w) && Settled(w, j) && !EntryOf(w, k).idle
    ensures EntryOf(Next(w, Releases(j, ending)), k).idle <==> j == k && ending == Normally(Fine) && k in w.leased
  {
    if j in w.leased && j != k {
      ReleaseKeeps(w, j, ending);
      hide Released, Core;
    }
  }

  lemma RetiringIsNotIdle(w: World, j: Key, o: Leaving, k: Key)
    requires Inv(w) && !EntryOf(w, k).idle
    ensures !EntryOf(Retire(w, j, o), k).idle
  {
  }

  // A whole life: the same session is leased again and again while all goes well, and expires
  // with its changes in the workspace.
  lemma {:induction false} SessionIsReused(events: seq<Event>, k: Key, a: Acquiring)
    requires k in After(events).leased && !After(events).closed && a.syncIn == Fine
    ensures var s := SessionOf(After(events), k);
            var idle := Next(After(events), Releases(k, Normally(Fine)));
            && k in Next(idle, Acquires(k, a)).leased && SessionOf(Next(idle, Acquires(k, a)), k) == s
            && SessionOf(Next(idle, Expires(k, Leaving(Fine, Fine, Fine))), k) == None
            && s.Some? && s.value in Next(idle, Expires(k, Leaving(Fine, Fine, Fine))).safe
  {
    var release := Releases(k, Normally(Fine));
    assert (events + [release])[..|events|] == events;
    assert After(events + [release]) == Next(After(events), release);
    LeaseEnds(events, k, Normally(Fine));
    HandsOutIff(events + [release], k, a);
    HandsOutSession(events + [release], k, a);
    RetiresIff(events + [release], k, Leaving(Fine, Fine, Fine), false);
  }

  // Once closed, a manager stays closed and hands out nothing any more; leases that were open
  // can only end.
  lemma {:induction false} ClosedForGood(events: seq<Event>, more: seq<Event>)
    ensures var w := After(events + [MarksClosed] + more);
            w.closed && w.leased <= After(events).leased
    decreases |more|
  {
    hide Next;
    var all := events + [MarksClosed] + more;
    if more == [] {
      ClosingCloses(After(events));
      assert all[..|all| - 1] == events && all[|all| - 1] == MarksClosed;
    } else {
      var early := more[..|more| - 1];
      ClosedForGood(events, early);
      assert all[..|all| - 1] == events + [MarksClosed] + early && all[|all| - 1] == more[|more| - 1];
      StaysClosed(After(events + [MarksClosed] + early), more[|more| - 1]);
    }
  }

  lemma ClosingCloses(w: World)
    ensures Next(w, MarksClosed).closed && Next(w, MarksClosed).leased == w.leased
  {
  }

  lemma StaysClosed(w: World, e: Event)
    requires w.closed
    ensures Next(w, e).closed && Next(w, e).leased <= w.leased
  {
  }
}
