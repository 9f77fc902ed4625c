// The lease protocol over every interleaving of leases, expiries, close, failures and losses.
module ManagerRuns {
  import opened Common
  import opened Manager

  datatype Event =
    | Acquires(k: Key, a: Acquiring)
    | Releases(k: Key, ending: Ending)
    | Expires(k: Key, o: Leaving)
    | MarksClosed
    | Closes(k: Key, o: Leaving)

  // Events that need the user's lock wait while it is held; an expiry needs its timer.
  function Next(w: World, e: Event): World {
    match e
    case Acquires(k, a) =>
      if k.user in w.locked || w.closed then w
      else if Prepare(w, k, a).1 then HandOut(Prepare(w, k, a).0, k) else Prepare(w, k, a).0
    case Releases(k, ending) => if k in w.leased then Release(w, k, ending) else w
    case Expires(k, o) => if k.user in w.locked || !EntryOf(w, k).idle then w else Retire(w, k, o)
    case MarksClosed => w.(closed := true, entries := map k | k in w.entries :: w.entries[k].(idle := false))
    case Closes(k, o) => if k.user in w.locked || !w.closed then w else Retire(w, k, o)
  }

  function After(events: seq<Event>): World {
    if events == [] then START else Next(After(events[..|events| - 1]), events[|events| - 1])
  }

  ghost predicate Held(w: World, s: nat) {
    exists k :: k in w.entries && w.entries[k].session == Some(s)
  }

  // ---- What every step keeps -------------------------------------------------------------

  // Session ids are fresh and never shared, and whatever session ever existed is still held,
  // or has all its changes in the workspace, or was reported lost.
  ghost predicate Core(w: World) {
    && (forall k :: SessionOf(w, k).Some? ==> SessionOf(w, k).value < w.next)
    && (forall j, k :: SessionOf(w, j).Some? && SessionOf(w, j) == SessionOf(w, k) ==> j == k)
    && (forall s :: s in w.safe ==> s < w.next)
    && (forall s :: 0 <= s < w.next ==> Held(w, s) || s in w.safe || s in w.lost)
  }

  // One key at rest: a lease holds its user's lock, on a session whose changes still have to
  // come back and with no failure recorded; a session kept with changes the workspace
  // lacks is leased, or recorded in cleanup_errors, or its release was cancelled under it.
  ghost predicate Settled(w: World, k: Key) {
    && (k in w.leased ==> k.user in w.locked && SessionOf(w, k).Some?)
    && (k in w.leased ==> k !in w.errors && SessionOf(w, k).value !in w.safe)
    && (SessionOf(w, k).Some? && SessionOf(w, k).value !in w.safe ==> k in w.leased || k in w.errors || k in w.cut)
    && (k in w.errors || k in w.cut ==> SessionOf(w, k).Some?)
    && (EntryOf(w, k).idle ==> SessionOf(w, k).Some? && k !in w.leased && k !in w.errors)
  }

  ghost predicate OneLeasePerUser(w: World) {
    forall j, k :: j in w.leased && k in w.leased && j.user == k.user ==> j == k
  }

  ghost predicate Inv(w: World) {
    Core(w) && OneLeasePerUser(w) && forall k :: Settled(w, k)
  }

  // A step on `k` leaves every other key as it was.
  ghost predicate Touches(w: World, v: World, k: Key) {
    && w.next <= v.next && w.lost <= v.lost
    && (forall j :: j != k ==> EntryOf(v, j) == EntryOf(w, j) && SessionOf(v, j) == SessionOf(w, j))
    && (forall j :: j != k ==> (j in v.errors <==> j in w.errors) && (j in v.cut <==> j in w.cut))
    && (forall s :: s in w.safe && SessionOf(w, k) != Some(s) ==> s in v.safe)
    && (forall s :: s in v.safe && SessionOf(w, k) != Some(s) && s < w.next ==> s in w.safe)
  }

  // The session of `k` is forgotten: fine once it is safe or was reported lost.
  lemma ForgetKeepsCore(w: World, v: World, k: Key)
    requires Core(w) && Touches(w, v, k) && v.next == w.next && w.safe <= v.safe
    requires forall s :: s in v.safe ==> s < v.next
    requires SessionOf(v, k) == None
    requires SessionOf(w, k).Some? ==> SessionOf(w, k).value in v.safe || SessionOf(w, k).value in v.lost
    ensures Core(v)
  {
    forall s | 0 <= s < v.next && s !in v.safe && s !in v.lost ensures Held(v, s) {
      var j :| j in w.entries && w.entries[j].session == Some(s);
      assert EntryOf(v, j) == EntryOf(w, j);
    }
  }

  // The session of `k` stays the same.
  lemma StayKeepsCore(w: World, v: World, k: Key)
    requires Core(w) && Touches(w, v, k) && v.next == w.next && SessionOf(v, k) == SessionOf(w, k)
    requires forall s :: s in v.safe ==> s < v.next
    ensures Core(v)
  {
    forall s | 0 <= s < v.next && s !in v.safe && s !in v.lost ensures Held(v, s) {
      if SessionOf(w, k) == Some(s) {
        assert k in v.entries && v.entries[k].session == Some(s);
      } else {
        var j :| j in w.entries && w.entries[j].session == Some(s);
        assert EntryOf(v, j) == EntryOf(w, j);
      }
    }
  }

  lemma ConnectKeepsCore(w: World, k: Key)
    requires Core(w) && SessionOf(w, k) == None
    ensures Core(Connected(w, k)) && Touches(w, Connected(w, k), k)
  {
    var v := Connected(w, k);
    assert forall j :: j != k ==> SessionOf(v, j) == SessionOf(w, j);
    forall s | 0 <= s < v.next && s !in v.safe && s !in v.lost ensures Held(v, s) {
      var j :| j in w.entries && w.entries[j].session == Some(s);
      assert EntryOf(v, j) == EntryOf(w, j);
    }
  }

  lemma DisconnectKeeps(w: World, k: Key, o: Leaving)
    requires Core(w)
    ensures var (v, answer) := Disconnect(w, k, o);
            && Core(v) && Touches(w, v, k) && w.safe <= v.safe && v.next == w.next
            && v.leased == w.leased && v.locked == w.locked && v.errors == w.errors && v.closed == w.closed
            && v.cut <= w.cut
            && (answer == Fine ==> v == w || (SessionOf(v, k) == None && k !in v.cut))
            && (answer != Fine ==> EntryOf(v, k) == EntryOf(w, k))
            && (answer == Lost ==> SessionOf(w, k).Some? && SessionOf(w, k).value in v.lost)
            && EntryOf(v, k).idle == EntryOf(w, k).idle
  {
    var (v, answer) := Disconnect(w, k, o);
    if SessionOf(w, k).Some? {
      if answer == Fine { ForgetKeepsCore(w, v, k); } else { StayKeepsCore(w, v, k); }
    }
  }

  lemma DropKeeps(w: World, k: Key)
    requires Core(w) && (SessionOf(w, k).Some? ==> SessionOf(w, k).value in w.lost)
    ensures Core(Drop(w, k)) && Touches(w, Drop(w, k), k)
  {
    ForgetKeepsCore(w, Drop(w, k), k);
  }

  lemma ReplaceKeeps(w: World, k: Key, o: Acquiring)
    requires Core(w) && SessionOf(w, k).Some? && SessionOf(w, k).value in w.lost
    ensures var (v, ready) := Replace(w, k, o);
            && Core(v) && Touches(w, v, k) && w.safe <= v.safe
            && v.leased == w.leased && v.locked == w.locked && v.closed == w.closed
            && k !in v.errors && k !in v.cut
            && (SessionOf(v, k).Some? ==> SessionOf(v, k).value in v.safe)
            && (ready ==> SessionOf(v, k).Some? && o.syncInAgain == Fine)
            && EntryOf(v, k).idle == EntryOf(w, k).idle
  {
    DropKeeps(w, k);
    var dropped := Drop(w, k);
    ConnectKeepsCore(dropped, k);
    if o.reconnects {
      var v := Replace(w, k, o).0;
      StayKeepsCore(Connected(dropped, k), v, k);
    }
  }

  // A session about to be handed out, coming from the session `w` held: the last thing done to
  // this very session was a successful sync in, and all its earlier changes are in the
  // workspace, unless its release was cut short.
  ghost predicate Ready(w: World, v: World, k: Key, o: Acquiring) {
    && SessionOf(v, k).Some? && k !in v.errors
    && (if SessionOf(v, k) == SessionOf(w, k) then o.syncIn == Fine
        else SessionOf(v, k) == Some(w.next) && o.syncInAgain == Fine)
    && (SessionOf(v, k).value in v.safe || k in v.cut)
  }

  ghost predicate SameLocks(w: World, v: World) {
    v.leased == w.leased && v.locked == w.locked && v.closed == w.closed
  }

  // A key under its lock with no lease: unsynced changes are recorded or cut short.
  ghost predicate Quiet(w: World, k: Key) {
    && k !in w.leased && !EntryOf(w, k).idle
    && (SessionOf(w, k).Some? && SessionOf(w, k).value !in w.safe ==> k in w.errors || k in w.cut)
    && (k in w.errors || k in w.cut ==> SessionOf(w, k).Some?)
  }

  lemma SyncInKeeps(w: World, k: Key, s: nat, o: Acquiring)
    requires Core(w) && Quiet(w, k) && SessionOf(w, k) == Some(s) && k !in w.errors
    ensures var (v, ready) := SyncIn(w, k, s, o);
            && Core(v) && Touches(w, v, k) && Quiet(v, k) && w.safe <= v.safe && SameLocks(w, v)
            && (ready ==> Ready(w, v, k, o))
  {
    if o.syncIn == Lost {
      var reported := w.(lost := w.lost + {s});
      StayKeepsCore(w, reported, k);
      ReplaceKeeps(reported, k, o);
    }
  }

  lemma SyncHeldKeeps(w: World, k: Key, o: Acquiring)
    requires Core(w) && Quiet(w, k)
    ensures var (v, ready) := SyncHeld(w, k, o);
            && Core(v) && Touches(w, v, k) && Quiet(v, k) && w.safe <= v.safe && SameLocks(w, v)
            && (ready ==> Ready(w, v, k, o))
  {
    if SessionOf(w, k).Some? {
      var s := SessionOf(w, k).value;
      if k !in w.errors {
        SyncInKeeps(w, k, s, o);
      } else if o.recover == Fine {
        var recovered := SyncBack(w, k, s, Fine).(errors := w.errors - {k});
        StayKeepsCore(w, recovered, k);
        SyncInKeeps(recovered, k, s, o);
      } else if o.recover == Lost {
        var reported := SyncBack(w, k, s, Lost);
        StayKeepsCore(w, reported, k);
        ReplaceKeeps(reported, k, o);
      }
    }
  }

  lemma PrepareKeeps(w: World, k: Key, o: Acquiring)
    requires Core(w) && Settled(w, k) && k !in w.leased
    ensures var (v, ready) := Prepare(w, k, o);
            && Core(v) && Touches(w, v, k) && Quiet(v, k) && w.safe <= v.safe && SameLocks(w, v)
            && (ready && SessionOf(w, k).Some? ==> Ready(w, v, k, o))
            && (ready && SessionOf(w, k) == None ==> Ready(Connected(WithIdle(w, k, false), k), v, k, o))
  {
    var woken := WithIdle(w, k, false);
    StayKeepsCore(w, woken, k);
    if SessionOf(w, k).Some? {
      SyncHeldKeeps(woken, k, o);
    } else {
      ConnectKeepsCore(woken, k);
      SyncHeldKeeps(Connected(woken, k), k, o);
    }
  }

  // A key whose lease is just ending.
  ghost predicate Ended(v: World, k: Key) {
    && (SessionOf(v, k).Some? && SessionOf(v, k).value !in v.safe ==> k in v.errors || k in v.cut)
    && (k in v.errors || k in v.cut ==> SessionOf(v, k).Some?)
    && (EntryOf(v, k).idle ==> SessionOf(v, k).Some? && k !in v.errors)
  }

  lemma ReleaseKeeps(w: World, k: Key, ending: Ending)
    requires Core(w) && Settled(w, k) && k in w.leased
    ensures var v := Released(w, k, ending);
            Core(v) && Touches(w, v, k) && v.leased == w.leased && v.locked == w.locked && Ended(v, k)
  {
    match ending {
      case Normally(sync) => NormalReleaseKeeps(w, k, sync);
      case Cancelled(o) => CancelledReleaseKeeps(w, k, o);
      case SandboxLost =>
        var reported := w.(lost := w.lost + {SessionOf(w, k).value});
        StayKeepsCore(w, reported, k);
        DropKeeps(reported, k);
      case Interrupted(synced) =>
        StayKeepsCore(w, Released(w, k, ending), k);
    }
  }

  lemma NormalReleaseKeeps(w: World, k: Key, sync: Answer)
    requires Core(w) && Settled(w, k) && k in w.leased
    ensures var v := Released(w, k, Normally(sync));
            Core(v) && Touches(w, v, k) && v.leased == w.leased && v.locked == w.locked && Ended(v, k)
  {
    var back := SyncBack(w, k, SessionOf(w, k).value, sync);
    StayKeepsCore(w, back, k);
    if sync == Lost { DropKeeps(back, k); } else { StayKeepsCore(w, Released(w, k, Normally(sync)), k); }
  }

  lemma CancelledReleaseKeeps(w: World, k: Key, o: Leaving)
    requires Core(w) && Settled(w, k) && k in w.leased
    ensures var v := Released(w, k, Cancelled(o));
            Core(v) && Touches(w, v, k) && v.leased == w.leased && v.locked == w.locked && Ended(v, k)
  {
    DisconnectKeeps(w, k, o);
    var (left, answer) := Disconnect(w, k, o);
    if answer == Lost { DropKeeps(left, k); } else { StayKeepsCore(left, Released(w, k, Cancelled(o)), k); }
  }

  lemma RetireKeeps(w: World, k: Key, o: Leaving)
    requires Core(w) && Settled(w, k) && k !in w.leased
    ensures var v := Retire(w, k, o);
            && Core(v) && Touches(w, v, k) && Settled(v, k) && v.leased == w.leased && v.locked == w.locked
  {
    var woken := WithIdle(w, k, false);
    StayKeepsCore(w, woken, k);
    DisconnectKeeps(woken, k, o);
    StayKeepsCore(Disconnect(woken, k, o).0, Retire(w, k, o), k);
  }

  lemma OthersStaySettled(w: World, v: World, k: Key)
    requires Inv(w) && Touches(w, v, k)
    requires forall j :: j != k ==> (j in v.leased <==> j in w.leased)
    requires forall u :: u != k.user && u in w.locked ==> u in v.locked
    requires k in w.leased || k.user !in w.locked
    ensures forall j :: j != k ==> Settled(v, j)
  {
    forall j | j != k ensures Settled(v, j) {
      assert Settled(w, j) && Settled(w, k);
      assert EntryOf(v, j) == EntryOf(w, j);
    }
  }

  lemma StepKeeps(w: World, e: Event)
    requires Inv(w)
    ensures Inv(Next(w, e))
  {
    var v := Next(w, e);
    match e {
      case Acquires(k, a) =>
        assert Settled(w, k);
        if k.user !in w.locked && !w.closed {
          PrepareKeeps(w, k, a);
          var (ready, handedOut) := Prepare(w, k, a);
          if handedOut { HandOutKeeps(w, ready, k); } else { OthersStaySettled(w, v, k); }
        }
      case Releases(k, ending) =>
        assert Settled(w, k);
        if k in w.leased {
          ReleaseKeeps(w, k, ending);
          StayKeepsCore(Released(w, k, ending), v, k);
          OthersStaySettled(w, v, k);
        }
      case Expires(k, o) =>
        assert Settled(w, k);
        if v != w { RetireKeeps(w, k, o); OthersStaySettled(w, v, k); }
      case Closes(k, o) =>
        assert Settled(w, k);
        if v != w { RetireKeeps(w, k, o); OthersStaySettled(w, v, k); }
      case MarksClosed =>
        assert forall k :: SessionOf(v, k) == SessionOf(w, k);
        forall k ensures Settled(v, k) { assert Settled(w, k); }
        forall s | 0 <= s < v.next && s !in v.safe && s !in v.lost ensures Held(v, s) {
          var j :| j in w.entries && w.entries[j].session == Some(s);
          assert v.entries[j].session == Some(s);
        }
    }
  }

  lemma HandOutKeeps(w: World, ready: World, k: Key)
    requires Inv(w) && k.user !in w.locked
    requires Core(ready) && Touches(w, ready, k) && Quiet(ready, k) && SameLocks(w, ready)
    requires SessionOf(ready, k).Some? && k !in ready.errors
    ensures Inv(HandOut(ready, k))
  {
    var v, s := HandOut(ready, k), SessionOf(ready, k).value;
    assert forall j :: SessionOf(v, j) == SessionOf(ready, j);
    forall t | 0 <= t < v.next && t !in v.safe && t !in v.lost ensures Held(v, t) {
      if t == s {
        assert k in v.entries && v.entries[k].session == Some(s);
      } else {
        assert Held(ready, t);
      }
    }
    assert forall j :: j in w.leased ==> Settled(w, j);
    forall j | j != k ensures Settled(v, j) {
      assert Settled(w, j);
      assert EntryOf(v, j) == EntryOf(w, j);
      assert SessionOf(ready, j) != SessionOf(ready, k) || SessionOf(ready, j) == None;
    }
  }

  // ---- What that means for every run -----------------------------------------------------

  lemma {:induction false} AlwaysInv(events: seq<Event>)
    ensures Inv(After(events))
  {
    if events != [] {
      AlwaysInv(events[..|events| - 1]);
      StepKeeps(After(events[..|events| - 1]), events[|events| - 1]);
    }
  }

  // In every run at most one lease per user is open, and it holds the user's lock.
  lemma {:induction false} OneLeaseAtATime(events: seq<Event>, j: Key, k: Key)
    requires j in After(events).leased && k in After(events).leased && j.user == k.user
    ensures j == k && k.user in After(events).locked && SessionOf(After(events), k).Some?
  {
    AlwaysInv(events);
    assert Settled(After(events), k);
  }

  // A session is handed out only right after a successful sync in, with no failed sync back
  // pending; everything an earlier lease left in it is in the workspace, unless that lease's
  // release was cut short.
  lemma {:induction false} HandedOutOnlyWhenSynced(events: seq<Event>, k: Key, a: Acquiring)
    requires k !in After(events).leased && k in Next(After(events), Acquires(k, a)).leased
    ensures var w := After(events);
            var from := if SessionOf(w, k).Some? then w else Connected(WithIdle(w, k, false), k);
            Ready(from, Prepare(w, k, a).0, k, a)
    ensures SessionOf(Next(After(events), Acquires(k, a)), k) == SessionOf(Prepare(After(events), k, a).0, k)
  {
    AlwaysInv(events);
    assert Settled(After(events), k);
    PrepareKeeps(After(events), k, a);
  }

  // No session is ever forgotten unless its changes were synced back or it was reported lost.
  lemma {:induction false} LeavesOnlySyncedOrLost(events: seq<Event>, k: Key, s: nat)
    requires s < After(events).next && !Held(After(events), s)
    ensures s in After(events).safe || s in After(events).lost
  {
    AlwaysInv(events);
  }

  // Some answer in the event says that the session its key holds is lost.
  predicate ReportsLoss(e: Event) {
    match e
    case Acquires(_, a) => a.recover == Lost || a.syncIn == Lost
    case Releases(_, ending) =>
      (match ending
       case Normally(sync) => sync == Lost
       case Cancelled(o) => o.sync == Lost || o.disconnect == Lost
       case SandboxLost => true
       case Interrupted(_) => false)
    case Expires(_, o) => o.sync == Lost || o.disconnect == Lost
    case Closes(_, o) => o.sync == Lost || o.disconnect == Lost
    case MarksClosed => false
  }

  // Some answer in the event says that a sync back of the session its key holds succeeded.
  predicate SyncsBack(e: Event) {
    match e
    case Acquires(_, a) => a.recover == Fine
    case Releases(_, ending) =>
      (match ending
       case Normally(sync) => sync == Fine
       case Cancelled(o) => o.sync == Fine
       case SandboxLost => false
       case Interrupted(synced) => synced)
    case Expires(_, o) => o.sync == Fine
    case Closes(_, o) => o.sync == Fine
    case MarksClosed => false
  }

  // The event is about the entry that holds this session.
  predicate Concerns(w: World, e: Event, s: nat) {
    !e.MarksClosed? && SessionOf(w, e.k) == Some(s)
  }

  // Of the sessions there were, at most the key's own becomes lost or safe, on these grounds.
  ghost predicate Says(w: World, v: World, k: Key, loss: bool, sync: bool) {
    && v.cut <= w.cut && w.next <= v.next
    && (forall s :: s in v.lost && s !in w.lost && s < w.next ==> SessionOf(w, k) == Some(s) && loss)
    && (forall s :: s in v.safe && s !in w.safe && s < w.next ==> SessionOf(w, k) == Some(s) && sync)
  }

  lemma DisconnectSays(w: World, k: Key, o: Leaving)
    ensures Says(w, Disconnect(w, k, o).0, k, o.sync == Lost || o.disconnect == Lost, o.sync == Fine)
  {
  }

  lemma SyncInSays(w: World, k: Key, s: nat, a: Acquiring)
    requires SessionOf(w, k) == Some(s)
    ensures Says(w, SyncIn(w, k, s, a).0, k, a.syncIn == Lost, false)
  {
  }

  lemma SyncHeldSays(w: World, k: Key, a: Acquiring)
    ensures Says(w, SyncHeld(w, k, a).0, k, a.recover == Lost || a.syncIn == Lost, a.recover == Fine)
  {
    if SessionOf(w, k).Some? {
      var s := SessionOf(w, k).value;
      SyncInSays(w, k, s, a);
      SyncInSays(SyncBack(w, k, s, Fine).(errors := w.errors - {k}), k, s, a);
    }
  }

  lemma PrepareSays(w: World, k: Key, a: Acquiring)
    ensures Says(w, Prepare(w, k, a).0, k, a.recover == Lost || a.syncIn == Lost, a.recover == Fine)
  {
    var woken := WithIdle(w, k, false);
    SyncHeldSays(woken, k, a);
    SyncHeldSays(Connected(woken, k), k, a);
  }

  // A session becomes "lost" or "safe" only on the provider's word about that very session (a
  // brand-new one is safe).
  lemma OnlyTheProviderSays(w: World, e: Event, s: nat)
    requires Inv(w) && s < w.next
    ensures s in Next(w, e).lost && s !in w.lost ==> Concerns(w, e, s) && ReportsLoss(e)
    ensures s in Next(w, e).safe && s !in w.safe ==> Concerns(w, e, s) && SyncsBack(e)
  {
    match e {
      case Acquires(k, a) => PrepareSays(w, k, a);
      case Releases(k, ending) => if ending.Cancelled? { DisconnectSays(w, k, ending.o); }
      case Expires(k, o) => DisconnectSays(WithIdle(w, k, false), k, o);
      case Closes(k, o) => DisconnectSays(WithIdle(w, k, false), k, o);
      case MarksClosed =>
    }
  }

  // A kept session whose changes are not in the workspace, with nothing to remember them by.
  ghost predicate Unrecorded(w: World, k: Key) {
    SessionOf(w, k).Some? && SessionOf(w, k).value !in w.safe && k !in w.leased && k !in w.errors
  }

  // The exact gap: a release leaves unsynced changes unrecorded if and only if it was itself
  // cancelled before its sync back had finished.
  lemma {:induction false} ReleaseRecordsUnlessInterrupted(events: seq<Event>, k: Key, ending: Ending)
    requires k in After(events).leased
    ensures Unrecorded(Next(After(events), Releases(k, ending)), k) <==> ending == Interrupted(false)
  {
    AlwaysInv(events);
    var w := After(events);
    assert Settled(w, k);
    ReleaseKeeps(w, k, ending);
    StepKeeps(w, Releases(k, ending));
    assert Settled(Next(w, Releases(k, ending)), k);
  }

  // Such a run: one lease, cancelled, its release cancelled before the sync back.
  lemma InterruptedReleaseIsForgotten(k: Key)
    ensures var a := Acquiring(true, Fine, Fine, true, Fine);
            var w := After([Acquires(k, a), Releases(k, Interrupted(false))]);
            Unrecorded(w, k) && w.errors == {} && w.locked == {}
  {
    var a := Acquiring(true, Fine, Fine, true, Fine);
    var events := [Acquires(k, a), Releases(k, Interrupted(false))];
    assert events[..1] == [Acquires(k, a)] && [Acquires(k, a)][..0] == [];
    assert After(events[..1]) == Next(START, Acquires(k, a));
    assert Prepare(START, k, a).0.next == 1 && SessionOf(Prepare(START, k, a).0, k) == Some(0);
    assert k in After(events[..1]).leased;
    assert After(events) == Next(After(events[..1]), events[1]);
  }

  // So in runs without such an interruption every unsynced session is recorded.
  lemma {:induction false} RecordedWithoutInterruption(events: seq<Event>, k: Key)
    requires forall i :: 0 <= i < |events| && events[i].Releases? ==> events[i].ending != Interrupted(false)
    ensures After(events).cut == {} && !Unrecorded(After(events), k)
  {
    AlwaysInv(events);
    assert Settled(After(events), k);
    NothingCutShort(events);
  }

  lemma {:induction false} NothingCutShort(events: seq<Event>)
    requires forall i :: 0 <= i < |events| && events[i].Releases? ==> events[i].ending != Interrupted(false)
    ensures After(events).cut == {}
  {
    if events != [] {
      NothingCutShort(events[..|events| - 1]);
      CutOnlyByInterruption(After(events[..|events| - 1]), events[|events| - 1]);
    }
  }

  lemma CutOnlyByInterruption(w: World, e: Event)
    requires !(e.Releases? && e.ending == Interrupted(false))
    ensures Next(w, e).cut <= w.cut
  {
    match e {
      case Acquires(k, a) => PrepareSays(w, k, a);
      case Releases(k, ending) => if ending.Cancelled? { DisconnectSays(w, k, ending.o); }
      case Expires(k, o) => DisconnectSays(WithIdle(w, k, false), k, o);
      case Closes(k, o) => DisconnectSays(WithIdle(w, k, false), k, o);
      case MarksClosed =>
    }
  }
}
