/** When exactly a herder whose executor stops is finished twice, if its actions ask for one instance. */
module SchedulerTwice {
  import opened TaskStatus
  import opened SchedulerModel
  import opened SchedulerInvariants
  import opened SchedulerHerds
  import opened SchedulerBooks
  import opened SchedulerSteps
  import opened SchedulerActions
  import opened SchedulerRuns
  import opened SchedulerTheorems
  import opened SchedulerQueue
  import opened SchedulerLines
  import opened SchedulerForce
  import opened SchedulerShelter
  import opened SchedulerAgain
  import opened SchedulerCancel
  import opened SchedulerAnswers
  import opened SchedulerAlike
  import opened SchedulerDuplicates

  // ---------------------------------------------------------------------------------------------
  // Cancellations that plan nothing
  // ---------------------------------------------------------------------------------------------

  /** The same instances are known, and those that had started have. */
  ghost predicate NobodyNew(a: Store, b: Store) {
    b.Keys == a.Keys && forall j <- a :: a[j].started ==> b[j].started
  }

  lemma NobodyNewTrans(a: Store, b: Store, c: Store)
    ensures NobodyNew(a, a) && (NobodyNew(a, b) && NobodyNew(b, c) ==> NobodyNew(a, c))
  {
  }

  lemma LineKeys(a: Store, b: Store, gone: set<Id>)
    requires KeepsLine(a, b, gone)
    ensures NobodyNew(a, b)
  {
    hide StatusOf;
  }

  lemma QuietTrigger(s: State, h: Id)
    requires s.script == []
    ensures Trigger(Watch(s, h), h) == s
  {
    assert Watch(s, h) == s;
    TriggerCases(s, h);
    hide Trigger;
  }

  /** A herder whose actions plan nothing is canceled: no instance is new. */
  lemma QuietHerder(s: State, i: Id, limbo: set<Id>, steady: bool)
    requires Inv(s, limbo, steady) && s.script == [] && IsHerder(s.store, i) && Unready(s.store, i)
    ensures NobodyNew(s.store, StopHerder(CancelHerd(s, i), i, false).store)
  {
    hide *;
    var t := CancelHerd(s, i);
    InvShape(s, limbo, steady);
    HerderIn(s.store, i);
    CancelHerdInv(s, i, limbo, steady);
    CancelHerdLine(s, i, limbo, steady);
    LineKeys(s.store, t.store, {});
    UnreadyIsStoppable(s, t, i, limbo);
    StoppableFacts(t, i, limbo);
    StopHerderCases(t, i, false);
    QuietTrigger(t, i);
    InstFacts(s, i, limbo, steady);
    FinishHerderLine(t, i, false);
    LineKeys(t.store, FinishHerder(t, i, false).store, {i});
    SoilStore(t, i);
    NobodyNewTrans(s.store, t.store, StopHerder(t, i, false).store);
  }

  lemma QuietCancel(s: State, i: Id, limbo: set<Id>, steady: bool)
    requires Inv(s, limbo, steady) && s.script == [] && i in s.store
    ensures NobodyNew(s.store, Cancel(s, i).store) && Cancel(s, i).script == []
  {
    hide *;
    NobodyNewTrans(s.store, s.store, s.store);
    CancelCases(s, i);
    InvShape(s, limbo, steady);
    if Unready(s.store, i) {
      if s.store[i].herd != i {
        DropSheepLine(s, i, false, limbo, steady);
        LineKeys(s.store, Cancel(s, i).store, {i});
      } else {
        HerderOf(s.store, i);
        QuietHerder(s, i, limbo, steady);
      }
    }
  }

  lemma {:induction false} QuietCancelAll(s: State, ids: seq<Id>, except: set<Id>, limbo: set<Id>, steady: bool)
    requires Inv(s, limbo, steady) && s.script == [] && Cancels(s, ids, except)
    ensures NobodyNew(s.store, CancelAll(s, ids).store)
    decreases |ids|
  {
    hide *;
    CancelAllCases(s, ids);
    NobodyNewTrans(s.store, if ids == [] then s.store else Cancel(s, ids[0]).store, CancelAll(s, ids).store);
    if ids != [] {
      FirstIsKnown(s, ids, except);
      QuietCancel(s, ids[0], limbo, steady);
      CancelKeeps(s, ids[0], limbo, steady);
      CancelsStays(s, Cancel(s, ids[0]), ids, except, {ids[0]});
      QuietCancelAll(Cancel(s, ids[0]), ids[1..], except, limbo, steady);
    }
  }

  lemma FirstIsKnown(s: State, ids: seq<Id>, except: set<Id>)
    requires Cancels(s, ids, except) && ids != []
    ensures ids[0] in s.store && (ids[0] in except || StatusOf(s.store[ids[0]]) != Planned)
  {
    assert ids[0] in ids;
    hide StatusOf;
  }

  // ---------------------------------------------------------------------------------------------
  // Those that are canceled, and the others
  // ---------------------------------------------------------------------------------------------

  lemma DoneStays(s: State, t: State, j: Id, except: set<Id>)
    requires Later(s, t, except) && j in s.store && s.store[j].herd != j && Done(s.store, j)
    ensures j in t.store && Done(t.store, j)
  {
    assert Evolves(j, s.store[j], t.store[j]);
    hide StatusOf, Guarded, SameSetting, OnlyNewIds;
  }

  /** A sheep that has not started is finished once it is canceled. */
  lemma SheepEnds(s: State, j: Id, limbo: set<Id>, steady: bool)
    requires Inv(s, limbo, steady) && j in s.store && s.store[j].herd != j && Unready(s.store, j)
    ensures j in Cancel(s, j).store && Done(Cancel(s, j).store, j)
  {
    var c := Close(s, j, false);
    assert DropSheep(s, j, false) == Release(Forget(c, j), j);
    hide *;
    CancelCases(s, j);
    InvShape(s, limbo, steady);
    InstFacts(s, j, limbo, steady);
    CloseSheepInv(s, j, false, limbo, steady);
    ClosedEnds(s, j);
    ReleaseInv(c, j, limbo + {j}, steady);
    DoneStays(c, Release(Forget(c, j), j), j, {});
  }

  lemma ClosedEnds(s: State, j: Id)
    requires j in s.store && Coherent(s.store[j])
    ensures var c := Close(s, j, false);
            j in c.store && Done(c.store, j) && c.store[j].herd == s.store[j].herd
  {
    ClosedEffect(s, j, false);
    CloseEffect(s, j, false);
    hide Close, Closed, Coherent, StatusOf;
  }

  /** A queued instance that no action asks for. */
  lemma QuietIsSheltered(s: State, j: Id)
    requires s.script == [] && j in s.store && !Done(s.store, j) && Get(s.awaited, j, {}) == {} && j in s.live
    requires StatusOf(s.store[j]) == Planned ==> Guarded(s, j)
    ensures Sheltered(s, j, Unasked)
  {
    SheepStatus(s, j);
    hide StatusOf, Guarded, MaxQueued;
  }

  lemma OneStaysElsewhere(s: State, t: State, x: Id, j: Id, except: set<Id>)
    requires Later(s, t, except) && Spares(s, t, j, Unasked) && Elsewhere(s, x, j)
    ensures Elsewhere(t, x, j)
  {
    assert forall y <- [x] :: Elsewhere(s, y, j);
    hide Later, Spares, Elsewhere;
    ElsewhereStays(s, t, [x], j, Unasked, except);
    assert x in [x];
  }

  /** When no action asks for anything, a queued sheep among those to be canceled is finished. */
  lemma {:induction false} CancelAllEnds(s: State, ids: seq<Id>, except: set<Id>, j: Id, steady: bool)
    requires Inv(s, {}, steady) && s.script == [] && Cancels(s, ids, except) && j in ids
    requires Sheltered(s, j, Unasked) && j in s.store && s.store[j].herd != j && StatusOf(s.store[j]) == Queued
    requires forall x <- ids :: x == j || Elsewhere(s, x, j)
    ensures j in CancelAll(s, ids).store && Done(CancelAll(s, ids).store, j)
    decreases |ids|
  {
    AlwaysFree();
    hide *;
    var t := Cancel(s, ids[0]);
    CancelAllCases(s, ids);
    FirstIsKnown(s, ids, except);
    CancelKeeps(s, ids[0], {}, steady);
    CancelsStays(s, t, ids, except, {ids[0]});
    QuietCancel(s, ids[0], {}, steady);
    StillThere(s, t, {ids[0]}, j);
    if ids[0] == j {
      QueuedIsUnready(s, j);
      SheepEnds(s, j, {}, steady);
      CancelAllKeeps(t, ids[1..], except, {}, steady);
      DoneStays(t, CancelAll(t, ids[1..]), j, except);
    } else {
      assert ids[0] in ids && j in ids[1..];
      NobodyInLimbo(s);
      CancelSpares(s, ids[0], j, Unasked, {}, steady);
      SparedFacts(s, t, j, Unasked);
      forall x <- ids[1..] ensures x == j || Elsewhere(t, x, j) {
        assert x in ids;
        if x != j {
          OneStaysElsewhere(s, t, x, j, {ids[0]});
        }
      }
      CancelAllEnds(t, ids[1..], except, j, steady);
    }
  }

  lemma AlwaysFree()
    ensures forall t :: Unforced(Unasked, t)
  {
  }

  lemma QueuedIsUnready(s: State, j: Id)
    requires j in s.store && StatusOf(s.store[j]) == Queued
    ensures Unready(s.store, j)
  {
  }

  // ---------------------------------------------------------------------------------------------
  // The herder that stopped
  // ---------------------------------------------------------------------------------------------

  /** A herder that stopped and waits for somebody is like any other that waits. */
  lemma WaitsForSome(s: State, h: Id, steady: bool)
    requires Inv(s, {h}, steady) && IsHerder(s.store, h) && StatusOf(s.store[h]) == Waiting
    requires Get(s.awaited, h, {}) != {}
    ensures Inv(s, {}, steady)
  {
    InvParts(s, {h}, steady);
    HerdsParts(s, {h}, steady);
    hide *;
    OutOfLimboIsClean(s, h);
    OutOfLimboIsIndexed(s, h);
    OutOfLimboIsHerding(s, h);
    InvOf(s, steady);
  }

  lemma InvOf(s: State, steady: bool)
    requires Shape(s) && Clean(s, {}) && Indexed(s, {}) && Herding(s, {}) && (steady ==> Judged(s)) && Books(s, steady)
    ensures Inv(s, {}, steady)
  {
    hide Shape, Clean, Indexed, Herding, Judged, Books;
  }

  lemma OutOfLimboIsClean(s: State, h: Id)
    requires Clean(s, {h}) && IsHerder(s.store, h)
    ensures Clean(s, {})
  {
    hide StatusOf;
  }

  lemma OutOfLimboIsIndexed(s: State, h: Id)
    requires Indexed(s, {h}) && IsHerder(s.store, h)
    ensures Indexed(s, {})
  {
    forall g <- s.live | IsHerder(s.store, g) ensures HerdIndexed(s, {}, g) {
      assert HerdIndexed(s, {h}, g);
      assert Pending(s.store, g, {}) == Pending(s.store, g, {h}) by { hide HerdIndexed, Done; }
      hide Pending, Members;
    }
    hide HerdIndexed;
  }

  lemma OutOfLimboIsHerding(s: State, h: Id)
    requires Herding(s, {h}) && Get(s.awaited, h, {}) != {}
    ensures Herding(s, {})
  {
    hide StatusOf;
  }

  /** When all those it waited for are finished and nobody is new, it is finished too. */
  lemma LastOneGone(u: State, v: State, h: Id, except: set<Id>, steady: bool)
    requires Inv(u, {}, steady) && Inv(v, {}, steady) && Later(u, v, except) && NobodyNew(u.store, v.store)
    requires IsHerder(u.store, h) && h in u.store && StatusOf(u.store[h]) == Waiting && h in u.live
    requires forall j <- Get(u.awaited, h, {}) :: j in v.store && Done(v.store, j)
    ensures h !in v.live
  {
    hide *;
    InvShape(u, {}, steady);
    InvShape(v, {}, steady);
    HerdsParts(u, {}, steady);
    HerdsParts(v, {}, steady);
    StillHerder(u, v, except, h);
    HerderIn(v.store, h);
    AwaitedArePending(u, h, {});
    if h in v.live {
      AwaitedArePending(v, h, {});
      NobodyPending(u, v, h, except);
      StillWaiting(u, v, h, except, steady);
      WaitingAwaits(v, h);
    }
  }

  lemma NobodyPending(u: State, v: State, h: Id, except: set<Id>)
    requires Later(u, v, except) && NobodyNew(u.store, v.store) && IsHerder(u.store, h)
    requires forall j <- Pending(u.store, h, {}) :: j in v.store && Done(v.store, j)
    ensures Pending(v.store, h, {}) == {}
  {
    forall j <- v.store ensures j !in Pending(v.store, h, {}) {
      assert j in u.store && Evolves(j, u.store[j], v.store[j]);
      if u.store[j].herd == h && j != h {
        if !Done(u.store, j) {
          assert j in Pending(u.store, h, {});
        } else {
          DoneStays(u, v, j, except);
        }
      }
    }
    hide Later, StatusOf;
  }

  lemma StillWaiting(u: State, v: State, h: Id, except: set<Id>, steady: bool)
    requires Inv(u, {}, steady) && Inv(v, {}, steady) && Later(u, v, except)
    requires IsHerder(u.store, h) && StatusOf(u.store[h]) == Waiting && h in v.live && IsHerder(v.store, h)
    ensures StatusOf(v.store[h]) == Waiting
  {
    hide *;
    InvShape(u, {}, steady);
    InvShape(v, {}, steady);
    HerdsParts(v, {}, steady);
    HerderIn(u.store, h);
    StillStarted(u, v, h, except);
    NotAtWork(u, v, h, steady);
    LiveIsNotDone(v, h);
  }

  lemma LiveIsNotDone(v: State, h: Id)
    requires Clean(v, {}) && h in v.live && IsHerder(v.store, h)
    requires StatusOf(v.store[h]) != Running && Started(StatusOf(v.store[h]))
    ensures StatusOf(v.store[h]) == Waiting
  {
    assert !Done(v.store, h);
    hide StatusOf, Clean;
  }

  lemma StillStarted(u: State, v: State, h: Id, except: set<Id>)
    requires Later(u, v, except) && h in u.store && StatusOf(u.store[h]) == Waiting
    ensures h in v.store && Started(StatusOf(v.store[h])) && v.busy == u.busy
  {
    assert Evolves(h, u.store[h], v.store[h]);
    hide StatusOf, Guarded, OnlyNewIds;
  }

  lemma NotAtWork(u: State, v: State, h: Id, steady: bool)
    requires Books(u, steady) && Books(v, steady) && v.busy == u.busy && h in u.store && h in v.store
    requires StatusOf(u.store[h]) != Running
    ensures StatusOf(v.store[h]) != Running
  {
    assert Staffed(u) && Staffed(v);
    hide Books, StatusOf;
  }

  lemma WaitingAwaits(s: State, h: Id)
    requires Herding(s, {}) && h in s.live && IsHerder(s.store, h) && StatusOf(s.store[h]) == Waiting
    ensures Get(s.awaited, h, {}) != {}
  {
    hide StatusOf, Unready;
  }

  // ---------------------------------------------------------------------------------------------
  // One more instance arrives
  // ---------------------------------------------------------------------------------------------

  /** The ids that go when an instance with the next id arrives that a request asks for. */
  ghost function Displaced(s: State, r: Request): seq<Id>
    requires r.task in s.cfg.tasks
  {
    Surplus(Ascending(Kin(s.store, r.task, r.criterion), s.next) + [s.next],
            s.cfg.tasks[r.task].maxQueued, s.cfg.tasks[r.task].keepLast)
  }

  /** The instance a request asks for takes the place of all the sheep a herder waits for. */
  ghost predicate TakesAll(s: State, h: Id, r: Request) {
    && Known(s, r) && r.lone && !r.force && 0 < s.cfg.tasks[r.task].maxQueued
    && Get(s.awaited, h, {}) != {} && Get(s.awaited, h, {}) <= Elems(Displaced(s, r))
  }

  lemma NewArrival(s: State, r: Request, h: Id)
    requires Shape(s)
    ensures var u := Insert(s, r, 0, h);
            && s.next in u.store && u.store[s.next].task == r.task && u.store[s.next].criterion == r.criterion
            && u.store[s.next].force == r.force && u.store[s.next].herd == s.next && u.next == s.next + 1
            && u.cfg == s.cfg && u.enabled == s.enabled && u.script == s.script && u.live == s.live + {s.next}
            && s.next !in s.store
            && forall j <- s.store :: j in u.store && u.store[j] == s.store[j]
    ensures forall j :: Get(Insert(s, r, 0, h).awaited, j, {}) == Get(s.awaited, j, {})
  {
    assert 0 !in s.live && s.next !in s.store by { hide Coherent; }
    hide Shape, Conditions;
  }

  lemma KinBelow(s: State, t: TaskId, criterion: string)
    requires Shape(s)
    ensures forall j <- Kin(s.store, t, criterion) :: j < s.next && j in s.store
  {
    hide Coherent, StatusOf;
  }

  lemma AscendingBeyond(ids: set<Id>, n: nat)
    requires n !in ids
    ensures Ascending(ids, n + 1) == Ascending(ids, n)
  {
  }

  lemma SameSets(a: set<Id>, b: set<Id>)
    requires a <= b && b <= a
    ensures a == b
  {
  }

  /** Those that an arriving instance makes go are the displaced ones. */
  lemma ArrivalDisplaces(s: State, r: Request, h: Id, steady: bool)
    requires Inv(s, {}, steady) && r.task in s.cfg.tasks
    ensures var u := Insert(s, r, 0, h);
            && MaxQueued(u, s.next) == s.cfg.tasks[r.task].maxQueued
            && Surplus(Duplicates(u, s.next), MaxQueued(u, s.next), KeepLast(u, s.next)) == Displaced(s, r)
  {
    hide *;
    var u := Insert(s, r, 0, h);
    var i := s.next;
    InvShape(s, {}, steady);
    NewArrival(s, r, h);
    NewIsGuarded(s, r, 0, h);
    ZeroIsNotLive(s);
    InsertInv(s, r, 0, h, {}, steady);
    InvShape(u, {}, steady);
    HerdsParts(u, {}, steady);
    PlannedIsUnready(u, i);
    KinAreRivals(u, i, {});
    RivalsAreKin(u, i);
    InsertKin(s, r, 0, h);
    SameSets(Kin(s.store, r.task, r.criterion), Rivals(u, i));
    KinBelow(s, r.task, r.criterion);
    AscendingBeyond(Kin(s.store, r.task, r.criterion), s.next);
    OrderOf(u, i);
    MaxIs(u, i);
    DisplacedIs(s, r);
  }

  lemma DisplacedIs(s: State, r: Request)
    requires r.task in s.cfg.tasks
    ensures Displaced(s, r) == Surplus(Ascending(Kin(s.store, r.task, r.criterion), s.next) + [s.next],
                                       s.cfg.tasks[r.task].maxQueued, s.cfg.tasks[r.task].keepLast)
  {
    hide Surplus, Ascending, Kin;
  }

  lemma ZeroIsNotLive(s: State)
    requires Shape(s)
    ensures 0 !in s.live
  {
    hide Coherent;
  }

  /** A sheep that a stopped herder waits for, after one more instance was planned. */
  lemma SheepAfterArrival(s: State, r: Request, h: Id, j: Id, steady: bool)
    requires Inv(s, {h}, steady) && IsHerder(s.store, h) && StatusOf(s.store[h]) == Waiting && s.script == []
    requires j in Get(s.awaited, h, {})
    ensures var u := Insert(s, r, 0, h);
            && Sheltered(u, j, Unasked) && j in u.store && u.store[j].herd == h && j != h && j != s.next
            && h in u.live && StatusOf(u.store[j]) == StatusOf(u.store[j])
  {
    hide *;
    var u := Insert(s, r, 0, h);
    InvShape(s, {h}, steady);
    SheepOfStopped(s, h, j, steady);
    NewArrival(s, r, h);
    InsertLater(s, r, 0, h);
    if StatusOf(s.store[j]) == Planned {
      GuardedStays(s, u, {}, j);
    }
    SameDone(s, u, j);
    QuietIsSheltered(u, j);
  }

  lemma SameDone(s: State, t: State, j: Id)
    requires j in s.store && j in t.store && t.store[j] == s.store[j]
    ensures Done(t.store, j) == Done(s.store, j)
  {
  }

  /** Those that go are queued ones, or the arriving one, none of which is a sheep's herder. */
  lemma LeavingElsewhere(u: State, ids: seq<Id>, i: Id, t: TaskId, criterion: string, j: Id, steady: bool)
    requires Inv(u, {}, steady) && Leaving(u, ids, i, t, criterion) && Sheltered(u, j, Unasked) && j != i
    ensures forall x <- ids :: x == j || Elsewhere(u, x, j)
    ensures j in ids ==> j in u.store && StatusOf(u.store[j]) == Queued
  {
    hide *;
    InvShape(u, {}, steady);
    forall x <- ids
      ensures x == j || Elsewhere(u, x, j)
      ensures x == j ==> j in u.store && StatusOf(u.store[j]) == Queued
    {
      OneLeaves(u, ids, i, t, criterion, x);
      if x != j {
        if x == i && Guarded(u, i) {
          ArrivingElsewhere(u, x, j, Unasked, {}, steady);
        } else {
          QueuedElsewhere(u, x, j, Unasked, {}, steady);
        }
      }
    }
  }

  lemma OneLeaves(u: State, ids: seq<Id>, i: Id, t: TaskId, criterion: string, x: Id)
    requires Leaving(u, ids, i, t, criterion) && x in ids
    ensures (x == i && Guarded(u, i)) || (x in u.store && StatusOf(u.store[x]) == Queued)
  {
    hide StatusOf, Guarded;
  }

  lemma DisplacesLeaving(u: State, ids: seq<Id>, i: Id, t: TaskId, criterion: string)
    requires Displaces(u, ids, i, t, criterion)
    ensures Leaving(u, ids, i, t, criterion)
  {
    hide Leaving, Kin, Front;
  }

  /** Those that go are canceled: the herder is finished exactly when all it waits for are among them. */
  lemma DisplacedEnd(s: State, r: Request, h: Id, steady: bool)
    requires Inv(s, {h}, steady) && IsHerder(s.store, h) && StatusOf(s.store[h]) == Waiting && s.script == []
    requires Known(s, r) && 0 < s.cfg.tasks[r.task].maxQueued && Get(s.awaited, h, {}) != {}
    ensures h in CancelAll(Insert(s, r, 0, h), Displaced(s, r)).live
       <==> !(Get(s.awaited, h, {}) <= Elems(Displaced(s, r)))
    ensures var v := CancelAll(Insert(s, r, 0, h), Displaced(s, r)); h in v.store && v.store[h].started
  {
    hide *;
    KnownIs(s, r);
    var u := Insert(s, r, 0, h);
    var i := s.next;
    var ids := Displaced(s, r);
    var v := CancelAll(u, ids);
    var except := if i in ids then {i} else {};
    WaitsForSome(s, h, steady);
    InvShape(s, {}, steady);
    NewArrival(s, r, h);
    NewIsGuarded(s, r, 0, h);
    ZeroIsNotLive(s);
    InsertInv(s, r, 0, h, {}, steady);
    ArrivalDisplaces(s, r, h, steady);
    SurplusDisplaces(u, i, {}, steady);
    DisplacesLeaving(u, ids, i, u.store[i].task, u.store[i].criterion);
    SurplusCancels(u, i);
    CancelAllKeeps(u, ids, except, {}, steady);
    QuietCancelAll(u, ids, except, {}, steady);
    HerderIn(s.store, h);
    InstFacts(s, h, {}, steady);
    StillStartedIf(u, v, h);
    forall j <- Get(s.awaited, h, {})
      ensures j in ids ==> j in v.store && Done(v.store, j)
      ensures j !in ids ==> h in v.live
    {
      SheepAfterArrival(s, r, h, j, steady);
      LeavingElsewhere(u, ids, i, u.store[i].task, u.store[i].criterion, j, steady);
      if j in ids {
        CancelAllEnds(u, ids, except, j, steady);
      } else {
        OthersRemain(u, ids, except, j, h, steady);
      }
    }
    ElemsIn(Get(s.awaited, h, {}), ids);
    if Get(s.awaited, h, {}) <= Elems(ids) {
      var j :| j in Get(s.awaited, h, {});
      SheepAfterArrival(s, r, h, j, steady);
      HerderOf(u.store, h);
      LastOneGone(u, v, h, except, steady);
    }
  }

  lemma StillStartedIf(u: State, v: State, h: Id)
    requires NobodyNew(u.store, v.store) && h in u.store && u.store[h].started
    ensures h in v.store && v.store[h].started
  {
  }

  lemma ElemsIn(ids: set<Id>, order: seq<Id>)
    ensures ids <= Elems(order) <==> forall j <- ids :: j in order
  {
  }

  lemma OthersRemain(u: State, ids: seq<Id>, except: set<Id>, j: Id, h: Id, steady: bool)
    requires Inv(u, {}, steady) && Cancels(u, ids, except) && Sheltered(u, j, Unasked) && j !in except
    requires j !in ids && (forall x <- ids :: x == j || Elsewhere(u, x, j))
    requires j in u.store && u.store[j].herd == h && h in u.live
    ensures h in CancelAll(u, ids).live
  {
    AlwaysFree();
    hide *;
    NobodyInLimbo(u);
    assert forall x <- ids :: Elsewhere(u, x, j);
    CancelAllSpares(u, ids, except, j, Unasked, {}, steady);
    SparedFacts(u, CancelAll(u, ids), j, Unasked);
  }

  // ---------------------------------------------------------------------------------------------
  // Finished again
  // ---------------------------------------------------------------------------------------------

  lemma AdmitLive(s: State, i: Id)
    ensures s.live <= Admit(s, i).live <= s.live + {i}
  {
    hide QueueSize;
  }

  lemma AdmitStarted(s: State, i: Id, h: Id)
    requires h in s.store && s.store[h].started
    ensures h in Admit(s, i).store && (h != i ==> Admit(s, i).store[h].started)
  {
    hide QueueSize;
  }

  lemma TakesAllCases(s: State, h: Id, r: Request)
    ensures TakesAll(s, h, r)
       <==> && Known(s, r) && r.task in s.cfg.tasks && r.lone && !r.force && 0 < s.cfg.tasks[r.task].maxQueued
            && Get(s.awaited, h, {}) != {} && Get(s.awaited, h, {}) <= Elems(Displaced(s, r))
  {
    hide Displaced;
  }

  /** A lone instance arrives while the actions of a stopped herder run. */
  lemma ArrivalEnds(s: State, r: Request, h: Id, steady: bool)
    requires Inv(s, {h}, steady) && IsHerder(s.store, h) && StatusOf(s.store[h]) == Waiting && s.script == []
    requires Known(s, r) && r.lone && Get(s.awaited, h, {}) != {}
    ensures var t := Enqueue(Insert(s, r, 0, h), s.next);
            (h in t.live <==> !TakesAll(s, h, r)) && (TakesAll(s, h, r) ==> h in t.store && t.store[h].started)
  {
    hide *;
    var u := Insert(s, r, 0, h);
    var i := s.next;
    WaitsForSome(s, h, steady);
    InvShape(s, {}, steady);
    KnownIs(s, r);
    NewArrival(s, r, h);
    TakesAllCases(s, h, r);
    EnqueueCases(u, i);
    DataIs(u, i);
    var j :| j in Get(s.awaited, h, {});
    SheepAfterArrival(s, r, h, j, steady);
    HerderIn(s.store, h);
    ArrivalDisplaces(s, r, h, steady);
    AdmitLive(u, i);
    AdmitLive(CancelAll(u, Displaced(s, r)), i);
    if 0 < s.cfg.tasks[r.task].maxQueued {
      DisplacedEnd(s, r, h, steady);
      AdmitStarted(CancelAll(u, Displaced(s, r)), i, h);
    }
  }

  /** What the actions of a stopped herder do when they ask for one instance, which asks for nothing. */
  lemma OneRequestEnds(s: State, r: Request, h: Id, steady: bool)
    requires Inv(s, {h}, steady) && IsHerder(s.store, h) && StatusOf(s.store[h]) == Waiting && s.script == []
    requires Get(s.awaited, h, {}) != {}
    ensures var t := Plan(s, r, HerdFor(s, r, h), h);
            (h in t.live <==> !TakesAll(s, h, r)) && (TakesAll(s, h, r) ==> h in t.store && t.store[h].started)
  {
    hide *;
    var j :| j in Get(s.awaited, h, {});
    SheepOfStopped(s, h, j, steady);
    HerdForHerder(s, r, h);
    HerderIn(s.store, h);
    TakesAllCases(s, h, r);
    KnownIs(s, r);
    if !Known(s, r) {
      UnknownPlansNothing(s, r, HerdFor(s, r, h), h);
    } else if !r.lone {
      HerderSettled(s, h);
      WaitingIsReady(s, h);
      NewSheepHolds(s, r, h, h, {h}, steady);
    } else {
      InvShape(s, {h}, steady);
      ZeroIsNotLive(s);
      PlanCases(s, r, 0, h);
      TriggerCases(Insert(s, r, 0, h), s.next);
      NewArrival(s, r, h);
      ArrivalEnds(s, r, h, steady);
    }
  }

  lemma OneRequestTrigger(s: State, r: Request, h: Id)
    requires s.script == [[r]]
    ensures var x := s.(script := []); Trigger(s, h) == Plan(x, r, HerdFor(x, r, h), h)
  {
    hide *;
    var x := s.(script := []);
    TriggerCases(s, h);
    assert [[r]][1..] == [] && [r][1..] == [];
    PlanAllCases(x, [r], h);
    PlanAllCases(Plan(x, r, HerdFor(x, r, h), h), [], h);
  }

  lemma SameTakesAll(s: State, t: State, h: Id, r: Request)
    requires t.cfg == s.cfg && t.enabled == s.enabled && t.next == s.next && t.awaited == s.awaited
    requires forall task, criterion :: Kin(t.store, task, criterion) == Kin(s.store, task, criterion)
    ensures TakesAll(t, h, r) <==> TakesAll(s, h, r)
  {
    hide Kin, Ascending, Surplus;
  }

  /** When the actions of a stopped herder ask for one instance, the herder is finished again if and only
      if that instance takes the place of all the sheep the herder waits for. */
  lemma FinishedAgainExactly(s: State, h: Id, r: Request, steady: bool)
    requires Inv(s, {h}, steady) && IsHerder(s.store, h) && StatusOf(s.store[h]) == Waiting && s.script == [[r]]
    ensures StopHerder(s, h, false).again != s.again <==> TakesAll(s, h, r)
  {
    hide *;
    var w := Watch(s, h);
    var x := w.(script := []);
    var t := Trigger(w, h);
    InvShape(s, {h}, steady);
    HerderIn(s.store, h);
    WaitingIsStoppable(s, h);
    TakesAllCases(s, h, r);
    FinishedAgainOnlyIf(s, h, false, steady);
    if Get(s.awaited, h, {}) != {} {
      WatchIsAside(s, h, {h}, steady);
      WatchIndexes(s, h);
      WatchOnlyStrays(s, h);
      ScriptIsAside(w, [], {h}, steady);
      OnceSame(s, w);
      TriggerOnce(w, h, {h}, steady);
      OnceTrans(s, w, t);
      OnceFacts(s, t, h);
      StopHerderAgain(s, h, false, {h}, steady);
      OneRequestTrigger(w, r, h);
      HerderOf(x.store, h);
      OneRequestEnds(x, r, h, steady);
      SameTakesAll(s, x, h, r);
    }
  }

  lemma VacateFacts(s: State, i: Id, ok: bool)
    requires i in s.busy && i in s.store
    ensures var t := Vacate(s, i, ok);
            t.enabled == s.enabled && t.next == s.next && t.awaited == s.awaited && t.cfg == s.cfg
  {
    hide Data;
  }

  lemma VacateKin(s: State, i: Id, ok: bool)
    requires i in s.busy && i in s.store && StatusOf(s.store[i]) == Running
    ensures forall task, criterion :: Kin(Vacate(s, i, ok).store, task, criterion) == Kin(s.store, task, criterion)
  {
    VacateLine(s, i, ok);
    hide *;
    forall task, criterion ensures Kin(Vacate(s, i, ok).store, task, criterion) == Kin(s.store, task, criterion) {
      LineKin(s.store, Vacate(s, i, ok).store, {}, task, criterion);
    }
  }

  /** When the executor of a herder stops and the actions of the herder ask for one instance, the herder
      is finished again if and only if that instance takes the place of all the sheep it waits for. */
  lemma StoppedAgainExactly(s: State, i: Id, ok: bool, r: Request)
    requires Inv(s, {}, false) && i in s.busy && i in s.store && s.store[i].herd == i
    ensures Stop(s.(script := [[r]]), i, ok).again != s.again <==> TakesAll(s, i, r)
  {
    hide *;
    var u := s.(script := [[r]]);
    var v := Vacate(u, i, ok);
    Scripted(s, [[r]], false);
    BusyIsRunning(u, i, false);
    VacateInv(u, i, ok, false);
    VacateAgain(u, i, ok);
    VacateHerd(u, i, ok);
    DataIs(u, i);
    StopCases(u, i, ok);
    HerderOf(v.store, i);
    FinishedAgainExactly(v, i, r, false);
    VacateFacts(u, i, ok);
    VacateKin(u, i, ok);
    SameTakesAll(s, u, i, r);
    SameTakesAll(u, v, i, r);
  }
}
