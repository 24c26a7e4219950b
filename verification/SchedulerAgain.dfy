/** When a herder is finished twice, and why it is not where no limited task keeps its last instances. */
module SchedulerAgain {
  import opened TaskStatus
  import opened SchedulerModel
  import opened SchedulerInvariants
  import opened SchedulerHerds
  import opened SchedulerBooks
  import opened SchedulerSteps
  import opened SchedulerActions
  import opened SchedulerRuns
  import opened SchedulerTheorems
  import opened SchedulerQueue
  import opened SchedulerLines
  import opened SchedulerForce
  import opened SchedulerShelter

  // ---------------------------------------------------------------------------------------------
  // Who is finished again
  // ---------------------------------------------------------------------------------------------

  lemma CloseAgain(s: State, i: Id, asFailure: bool)
    requires i in s.store
    ensures Close(s, i, asFailure).again
         == if s.store[i].started && i !in s.live then s.again + [i] else s.again
  {
    hide Closed, Credited, ResourcesOf;
  }

  lemma ForgetAgain(s: State, i: Id)
    ensures Forget(s, i).again == s.again
  {
    hide *;
    ForgetSetting(s, i);
    SameBooksAgain(s, Forget(s, i));
  }

  lemma SameBooksAgain(s: State, t: State)
    requires SameBooks(s, t)
    ensures t.again == s.again && t.cfg == s.cfg
  {
  }

  lemma FinishHerderAgain(s: State, h: Id, asFailure: bool)
    requires h in s.store
    ensures FinishHerder(s, h, asFailure).again
         == if s.store[h].started && h !in s.live then s.again + [h] else s.again
  {
    hide Close, Forget;
    CloseAgain(s, h, asFailure);
    ForgetAgain(Close(s, h, asFailure), h);
  }

  /** A herder that stops is finished again when the actions it triggers on its way out have
      finished it already. */
  lemma StopHerderAgain(s: State, h: Id, asFailure: bool, limbo: set<Id>, steady: bool)
    requires Inv(s, limbo, steady) && Stoppable(s, h, limbo)
    ensures var t := Trigger(Watch(s, h), h);
            && h in t.store
            && StopHerder(s, h, asFailure).again
               == if t.store[h].started && h !in t.live then t.again + [h] else t.again
  {
    hide *;
    var t := Trigger(Watch(s, h), h);
    StoppableFacts(s, h, limbo);
    StopHerderCases(s, h, asFailure);
    WatchIsAside(s, h, limbo, steady);
    TriggerKeeps(Watch(s, h), h, limbo, steady);
    InvShape(s, limbo, steady);
    InvShape(t, limbo, steady);
    LaterThen(s, Watch(s, h), t, {});
    NotRunning(s, t, h, limbo, steady);
    FinishHerderAgain(t, h, asFailure);
    SoilAgain(t, h);
    if Get(t.awaited, h, {}) != {} {
      AwaitingIsLive(t, h, limbo, steady);
    }
  }

  lemma SoilAgain(s: State, h: Id)
    ensures Soil(s, h).again == s.again && Soil(s, h).cfg == s.cfg
  {
  }

  lemma AwaitingIsLive(s: State, h: Id, limbo: set<Id>, steady: bool)
    requires Herds(s, limbo, steady) && Get(s.awaited, h, {}) != {}
    ensures h in s.live
  {
    hide Clean, Herding, Judged, HerdIndexed, StatusOf;
  }

  lemma ReleaseAgain(s: State, i: Id, limbo: set<Id>, steady: bool)
    requires Herds(s, limbo, steady) && InLimbo(s, i, limbo)
    ensures Release(Forget(s, i), i).again == s.again
  {
    hide *;
    SheepIsNotHerder(s, i, limbo);
    var h := s.store[i].herd;
    if h in s.live {
      var t := Unawait(s, i);
      StillAwaited(s, i, limbo, steady);
      ReleaseCases(s, i);
      UnawaitAgain(s, i);
      FinishHerderAgain(t, h, false);
      SoilAgain(t, h);
    } else {
      NoIndexes(s, h, limbo, steady);
      ForgetAgain(s, i);
      OrphanAgain(s, i);
    }
  }

  lemma UnawaitAgain(s: State, i: Id)
    ensures Unawait(s, i).again == s.again && Unawait(s, i).store == s.store && Unawait(s, i).live == s.live
  {
  }

  lemma OrphanAgain(s: State, i: Id)
    requires i in s.store && s.store[i].herd != i && s.store[i].herd !in s.live && s.store[i].herd !in s.awaited
    ensures Release(Forget(s, i), i).again == Forget(s, i).again
  {
    hide FinishHerder, StatusOf, Sheep;
    assert Forget(s, i) == s.(live := s.live - {i});
    hide Forget;
  }

  /** Dropping or stopping a live sheep finishes nobody twice. */
  lemma DropSheepAgain(s: State, i: Id, asFailure: bool, limbo: set<Id>, steady: bool)
    requires Inv(s, limbo, steady) && i in s.store && s.store[i].herd != i && Unready(s.store, i)
    requires Unready(s.store, s.store[i].herd) ==> !asFailure
    ensures DropSheep(s, i, asFailure).again == s.again
  {
    var t := Close(s, i, asFailure);
    assert DropSheep(s, i, asFailure) == Release(Forget(t, i), i);
    hide *;
    InvShape(s, limbo, steady);
    InstFacts(s, i, limbo, steady);
    CloseAgain(s, i, asFailure);
    CloseSheepInv(s, i, asFailure, limbo, steady);
    InvShape(t, limbo + {i}, steady);
    ReleaseAgain(t, i, limbo + {i}, steady);
  }

  lemma {:induction false} DropSheepOfAgain(s: State, ids: seq<Id>, h: Id, limbo: set<Id>, steady: bool)
    requires Inv(s, limbo, steady) && AreSheep(s, ids, h)
    ensures DropSheepOf(s, ids).again == s.again
    decreases |ids|
  {
    if ids != [] {
      hide *;
      var t := if Cancelable(s, ids[0]) then DropSheep(s, ids[0], false) else s;
      DropOneCases(s, ids);
      HeadSheep(s, ids, h);
      if Cancelable(s, ids[0]) {
        DropSheepInv(s, ids[0], false, limbo, steady);
        DropSheepAgain(s, ids[0], false, limbo, steady);
        SheepStay(s, t, ids[1..], h, {ids[0]});
      }
      DropSheepOfAgain(t, ids[1..], h, limbo, steady);
    }
  }

  lemma CancelHerdAgain(s: State, h: Id, limbo: set<Id>, steady: bool)
    requires Inv(s, limbo, steady)
    ensures CancelHerd(s, h).again == s.again
  {
    hide *;
    CancelHerdIs(s, h);
    InvShape(s, limbo, steady);
    SheepAreSheep(s, h, limbo, steady);
    DropSheepOfAgain(s, Ascending(Sheep(s, h), s.next), h, limbo, steady);
  }

  // ---------------------------------------------------------------------------------------------
  // Actions finish nobody again
  // ---------------------------------------------------------------------------------------------

  /** Nobody was finished again, and no instance has started. */
  ghost predicate Once(s: State, t: State) {
    t.again == s.again && forall i <- s.store :: i in t.store && (!s.store[i].started ==> !t.store[i].started)
  }

  lemma OnceTrans(s: State, t: State, u: State)
    requires Once(s, t) && Once(t, u)
    ensures Once(s, u)
  {
  }

  lemma OnceSame(s: State, t: State)
    requires t.again == s.again && t.store == s.store
    ensures Once(s, t)
  {
  }

  lemma OnceFacts(s: State, t: State, i: Id)
    requires Once(s, t) && i in s.store
    ensures t.again == s.again && i in t.store && (!s.store[i].started ==> !t.store[i].started)
  {
  }

  lemma InsertOnce(s: State, req: Request, herd: Id, parent: Id)
    requires Shape(s) && (herd == 0 || IsHerder(s.store, herd))
    ensures Once(s, Insert(s, req, herd, parent))
  {
    InsertEffect(s, req, herd, parent);
    hide Insert, StatusOf, Shape;
  }

  lemma AdmitOnce(s: State, i: Id)
    requires i in s.store
    ensures Once(s, Admit(s, i))
  {
    AdmitStore(s, i);
    AdmitRest(s, i);
    hide Admit;
  }

  lemma AdmitRest(s: State, i: Id)
    ensures s.live <= Admit(s, i).live && Admit(s, i).again == s.again && Admit(s, i).cfg == s.cfg
  {
    hide QueueSize, Data;
  }

  lemma CloseOnce(s: State, i: Id)
    requires i in s.store
    ensures forall j <- s.store ::
              j in Close(s, i, false).store && Close(s, i, false).store[j].started == s.store[j].started
  {
    CloseEffect(s, i, false);
    assert Closed(s, i, false).started == s.store[i].started by { hide Judge, Herded, PolicyOf; }
    hide Close, Closed;
  }

  lemma FinishHerderOnce(s: State, h: Id)
    requires h in s.store
    ensures forall j <- s.store ::
              j in FinishHerder(s, h, false).store && FinishHerder(s, h, false).store[j].started == s.store[j].started
  {
    CloseOnce(s, h);
    hide Close;
    ForgetSetting(Close(s, h, false), h);
    hide Forget;
  }

  lemma ReleaseOnce(s: State, i: Id, limbo: set<Id>, steady: bool)
    requires Herds(s, limbo, steady) && InLimbo(s, i, limbo)
    ensures Once(s, Release(Forget(s, i), i))
  {
    hide *;
    ReleaseAgain(s, i, limbo, steady);
    SheepIsNotHerder(s, i, limbo);
    var h := s.store[i].herd;
    if h in s.live {
      var t := Unawait(s, i);
      StillAwaited(s, i, limbo, steady);
      ReleaseCases(s, i);
      UnawaitAgain(s, i);
      FinishHerderOnce(t, h);
      SoilStore(t, h);
    } else {
      NoIndexes(s, h, limbo, steady);
      OrphanReleased(s, i);
    }
    IsOnce(s, Release(Forget(s, i), i));
  }

  lemma IsOnce(s: State, t: State)
    requires t.again == s.again && forall j <- s.store :: j in t.store && t.store[j].started == s.store[j].started
    ensures Once(s, t)
  {
  }

  lemma DropSheepOnce(s: State, i: Id, limbo: set<Id>, steady: bool)
    requires Inv(s, limbo, steady) && i in s.store && s.store[i].herd != i && Unready(s.store, i)
    ensures Once(s, DropSheep(s, i, false))
  {
    var t := Close(s, i, false);
    assert DropSheep(s, i, false) == Release(Forget(t, i), i);
    hide *;
    InvShape(s, limbo, steady);
    InstFacts(s, i, limbo, steady);
    CloseAgain(s, i, false);
    CloseOnce(s, i);
    CloseSheepInv(s, i, false, limbo, steady);
    InvShape(t, limbo + {i}, steady);
    ReleaseOnce(t, i, limbo + {i}, steady);
    IsOnce(s, t);
    OnceTrans(s, t, DropSheep(s, i, false));
  }

  lemma {:induction false} DropSheepOfOnce(s: State, ids: seq<Id>, h: Id, limbo: set<Id>, steady: bool)
    requires Inv(s, limbo, steady) && AreSheep(s, ids, h)
    ensures Once(s, DropSheepOf(s, ids))
    decreases |ids|
  {
    hide *;
    if ids == [] {
      DropNobody(s);
      OnceSame(s, s);
    } else {
      var t := if Cancelable(s, ids[0]) then DropSheep(s, ids[0], false) else s;
      DropOneCases(s, ids);
      HeadSheep(s, ids, h);
      if Cancelable(s, ids[0]) {
        DropSheepInv(s, ids[0], false, limbo, steady);
        DropSheepOnce(s, ids[0], limbo, steady);
        SheepStay(s, t, ids[1..], h, {ids[0]});
      } else {
        OnceSame(s, s);
      }
      DropSheepOfOnce(t, ids[1..], h, limbo, steady);
      OnceTrans(s, t, DropSheepOf(s, ids));
    }
  }

  lemma {:induction false} PlanAllOnce(s: State, reqs: seq<Request>, i: Id, limbo: set<Id>, steady: bool)
    requires Inv(s, limbo, steady) && i in s.store
    ensures Once(s, PlanAll(s, reqs, i))
    decreases |s.script|, 7, |reqs|
  {
    hide *;
    PlanAllCases(s, reqs, i);
    if reqs == [] {
      OnceSame(s, s);
    } else {
      var herd := HerdFor(s, reqs[0], i);
      var t := Plan(s, reqs[0], herd, i);
      InvShape(s, limbo, steady);
      PlanHerd(s, reqs[0], i, limbo, steady);
      PlanKeeps(s, reqs[0], herd, i, limbo, steady);
      StillThere(s, t, {}, i);
      PlanOnce(s, reqs[0], herd, i, limbo, steady);
      PlanAllOnce(t, reqs[1..], i, limbo, steady);
      OnceTrans(s, t, PlanAll(t, reqs[1..], i));
    }
  }

  lemma {:induction false} TriggerOnce(s: State, i: Id, limbo: set<Id>, steady: bool)
    requires Inv(s, limbo, steady) && i in s.store
    ensures Once(s, Trigger(s, i))
    decreases |s.script|, 0, 0
  {
    hide *;
    TriggerCases(s, i);
    if s.script == [] {
      OnceSame(s, s);
    } else {
      var t := s.(script := s.script[1..]);
      ScriptIsAside(s, s.script[1..], limbo, steady);
      OnceSame(s, t);
      PlanAllOnce(t, s.script[0], i, limbo, steady);
      OnceTrans(s, t, Trigger(s, i));
    }
  }

  lemma {:induction false} PlanOnce(s: State, req: Request, herd: Id, parent: Id, limbo: set<Id>, steady: bool)
    requires Inv(s, limbo, steady) && (herd == 0 || IsHerder(s.store, herd))
    ensures Once(s, Plan(s, req, herd, parent))
    decreases |s.script|, 6, 0
  {
    hide *;
    PlanCases(s, req, herd, parent);
    if req.task !in s.cfg.tasks || req.task !in s.enabled {
      OnceSame(s, s);
    } else {
      var t := Insert(s, req, herd, parent);
      var u := Trigger(t, s.next);
      InvShape(s, limbo, steady);
      NewIsGuarded(s, req, herd, parent);
      InsertInv(s, req, herd, parent, limbo, steady);
      InsertOnce(s, req, herd, parent);
      TriggerKeeps(t, s.next, limbo, steady);
      TriggerOnce(t, s.next, limbo, steady);
      OnceTrans(s, t, u);
      if herd in s.live && herd in s.store {
        SoilAgain(u, herd);
        SoilStore(u, herd);
        OnceSame(u, Soil(u, herd));
        OnceTrans(s, u, Soil(u, herd));
      } else {
        LiveHerderIsKnown(s, herd);
        InvShape(t, limbo, steady);
        GuardedStays(t, u, {}, s.next);
        EnqueueOnce(u, s.next, limbo, steady);
        OnceTrans(s, u, Enqueue(u, s.next));
      }
    }
  }

  lemma {:induction false} EnqueueOnce(s: State, i: Id, limbo: set<Id>, steady: bool)
    requires Inv(s, limbo, steady) && Guarded(s, i)
    ensures Once(s, Enqueue(s, i))
    decreases |s.script|, 5, 0
  {
    hide *;
    EnqueueCases(s, i);
    PlannedIsUnready(s, i);
    if Data(s, i).force || (Data(s, i).task in s.enabled && MaxQueued(s, i) == 0) {
      AdmitOnce(s, i);
    } else if Data(s, i).task !in s.enabled {
      CancelOnce(s, i, limbo, steady);
    } else {
      var surplus := Surplus(Duplicates(s, i), MaxQueued(s, i), KeepLast(s, i));
      var t := CancelAll(s, surplus);
      SurplusCancels(s, i);
      CancelAllOnce(s, surplus, if i in surplus then {i} else {}, limbo, steady);
      OnceFacts(s, t, i);
      AdmitOnce(t, i);
      OnceTrans(s, t, Admit(t, i));
    }
  }

  lemma {:induction false} CancelAllOnce(s: State, ids: seq<Id>, except: set<Id>, limbo: set<Id>, steady: bool)
    requires Inv(s, limbo, steady) && Cancels(s, ids, except)
    ensures Once(s, CancelAll(s, ids))
    decreases |s.script|, 4, |ids|
  {
    hide *;
    CancelAllCases(s, ids);
    if ids == [] {
      OnceSame(s, s);
    } else {
      var t := Cancel(s, ids[0]);
      FirstCancels(s, ids, except);
      CancelKeeps(s, ids[0], limbo, steady);
      CancelsStays(s, t, ids, except, {ids[0]});
      CancelOnce(s, ids[0], limbo, steady);
      CancelAllOnce(t, ids[1..], except, limbo, steady);
      OnceTrans(s, t, CancelAll(t, ids[1..]));
    }
  }

  lemma {:induction false} CancelOnce(s: State, i: Id, limbo: set<Id>, steady: bool)
    requires Inv(s, limbo, steady) && i in s.store
    ensures Once(s, Cancel(s, i))
    decreases |s.script|, 3, 0
  {
    hide *;
    CancelCases(s, i);
    InvShape(s, limbo, steady);
    if !Unready(s.store, i) {
      OnceSame(s, s);
    } else if s.store[i].herd != i {
      DropSheepOnce(s, i, limbo, steady);
    } else {
      var t := CancelHerd(s, i);
      HerderOf(s.store, i);
      CancelHerdInv(s, i, limbo, steady);
      CancelHerdIs(s, i);
      SheepAreSheep(s, i, limbo, steady);
      DropSheepOfOnce(s, Ascending(Sheep(s, i), s.next), i, limbo, steady);
      UnreadyIsStoppable(s, t, i, limbo);
      HerderStays(s, t, i);
      StopHerderOnce(t, i, limbo, steady);
      OnceTrans(s, t, Cancel(s, i));
    }
  }

  /** A herder that never started is not finished again. */
  lemma {:induction false} StopHerderOnce(s: State, h: Id, limbo: set<Id>, steady: bool)
    requires Inv(s, limbo, steady) && IsHerder(s.store, h) && Unready(s.store, h)
    ensures Once(s, StopHerder(s, h, false)) && forall asFailure :: StopHerder(s, h, asFailure).again == s.again
    decreases |s.script|, 2, 0
  {
    hide *;
    var w := Watch(s, h);
    var t := Trigger(w, h);
    HerderIn(s.store, h);
    UnreadyIsStoppable(s, s, h, limbo);
    StoppableFacts(s, h, limbo);
    InvShape(s, limbo, steady);
    InstFacts(s, h, limbo, steady);
    WatchIsAside(s, h, limbo, steady);
    WatchIndexes(s, h);
    OnceSame(s, w);
    TriggerOnce(w, h, limbo, steady);
    OnceTrans(s, w, t);
    OnceFacts(s, t, h);
    forall asFailure ensures StopHerder(s, h, asFailure).again == s.again {
      StopHerderAgain(s, h, asFailure, limbo, steady);
    }
    StopHerderCases(s, h, false);
    SoilAgain(t, h);
    SoilStore(t, h);
    OnceSame(t, Soil(t, h));
    FinishHerderOnce(t, h);
    if StopHerder(s, h, false) == FinishHerder(t, h, false) {
      IsOnce(t, StopHerder(s, h, false));
    }
    OnceTrans(s, t, StopHerder(s, h, false));
  }

  // ---------------------------------------------------------------------------------------------
  // Who is finished again
  // ---------------------------------------------------------------------------------------------

  /** Nobody can take the place of a queued instance of the task: none that arrives is asked for, or
      the task does not limit its queued instances, or it refuses those that arrive, or its limit is
      higher than that on all queued instances. */
  ghost predicate Kept(s: State, t: State, j: Id, steady: bool) {
    && j in s.store
    && (|| MaxQueued(s, j) == 0 || NeverAsked(s.script, s.store[j].task)
        || (steady && s.cfg.maxQueued < MaxQueued(s, j))
        || (Deduped(s, s.store[j].task, false) && NoForce(t)))
  }

  lemma ShelterOf(s: State, t: State, j: Id, steady: bool) returns (m: Shelter)
    requires j in s.store && (StatusOf(s.store[j]) == Queued ==> Kept(s, t, j, steady))
    requires || StatusOf(s.store[j]) == Running || Guarded(s, j) || StatusOf(s.store[j]) == Queued
             || (StatusOf(s.store[j]) == Waiting && j in s.live && Get(s.awaited, j, {}) == {})
    ensures Sheltered(s, j, m) && Unforced(m, t) && (m == Roomy ==> steady)
  {
    hide NoForce, Deduped, NeverAsked, Guarded, MaxQueued;
    m := if StatusOf(s.store[j]) != Queued || MaxQueued(s, j) == 0 then Unlimited
         else if NeverAsked(s.script, s.store[j].task) then Unasked
         else if steady && s.cfg.maxQueued < MaxQueued(s, j) then Roomy
         else Refusing;
  }

  lemma SheepOfStopped(s: State, h: Id, j: Id, steady: bool)
    requires Inv(s, {h}, steady) && IsHerder(s.store, h) && StatusOf(s.store[h]) == Waiting
    requires j in Get(s.awaited, h, {})
    ensures j in s.store && s.store[j].herd == h && j != h && h in s.live && j in s.live && !Done(s.store, j)
    ensures StatusOf(s.store[j]) == Planned ==> Guarded(s, j)
    ensures Get(s.awaited, j, {}) == {}
  {
    InvShape(s, {h}, steady);
    AwaitingIsLive(s, h, {h}, steady);
    AwaitedArePending(s, h, {h});
    InstFacts(s, h, {h}, steady);
    SheepAwaitNobody(s, j, h, {h});
    assert j in Pending(s.store, h, {h});
    InstFacts(s, j, {h}, steady);
    hide Inv, Herds, Books, Shape, Coherent;
  }

  lemma SheepAwaitNobody(s: State, j: Id, h: Id, limbo: set<Id>)
    requires Indexed(s, limbo) && Shape(s) && h in s.store
    ensures j in s.store && s.store[j].herd == h && j != h ==> Get(s.awaited, j, {}) == {}
  {
    hide HerdIndexed, Coherent, StatusOf;
  }

  /** While a herder that stopped triggers its actions, one of its sheep that cannot be displaced
      keeps it from being finished. */
  lemma HerderIsHeld(s: State, h: Id, j: Id, asFailure: bool, steady: bool)
    requires Inv(s, {h}, steady) && IsHerder(s.store, h) && StatusOf(s.store[h]) == Waiting
    requires j in Get(s.awaited, h, {}) && j in s.store
    requires StatusOf(s.store[j]) == Queued ==> Kept(s, StopHerder(s, h, asFailure), j, steady)
    ensures h in Trigger(Watch(s, h), h).live
  {
    hide *;
    SheepOfStopped(s, h, j, steady);
    SheepStatus(s, j);
    var m := ShelterOf(s, StopHerder(s, h, asFailure), j, steady);
    InvShape(s, {h}, steady);
    HerderIn(s.store, h);
    WaitingIsStoppable(s, h);
    StoppableFacts(s, h, {h});
    StopHerderCases(s, h, asFailure);
    var w := Watch(s, h);
    var t := Trigger(w, h);
    WatchIsAside(s, h, {h}, steady);
    WatchIndexes(s, h);
    TriggerKeeps(w, h, {h}, steady);
    InvShape(w, {h}, steady);
    InvShape(t, {h}, steady);
    LaterThen(s, w, t, {});
    NotRunning(s, t, h, {h}, steady);
    FinishHerderLater(t, h, asFailure);
    SoilIsAside(t, h, {h}, steady);
    LaterWeaken(t, Soil(t, h), {}, {h});
    UnforcedBefore(t, StopHerder(s, h, asFailure), {h}, m);
    HerderSettled(w, h);
    SparesSame(s, w, j, m);
    ShelteredFacts(s, j, m);
    if m == Refusing {
      WatchDeduped(s, h, s.store[j].task, false);
    }
    StillSheltered(s, w, j, m, {});
    TriggerSpares(w, h, j, m, {h}, steady);
    SparedFacts(w, t, j, m);
  }

  lemma SheepStatus(s: State, j: Id)
    requires j in s.store && !Done(s.store, j)
    ensures StatusOf(s.store[j]) == Planned || StatusOf(s.store[j]) == Queued || StatusOf(s.store[j]) == Running
            || StatusOf(s.store[j]) == Waiting
  {
  }

  /** A herder that awaits nobody when it stops is not finished by its actions either. */
  lemma {:induction false} PlanAllIdle(s: State, reqs: seq<Request>, h: Id, limbo: set<Id>, steady: bool)
    requires Inv(s, limbo, steady) && Settled(s, limbo) && IsHerder(s.store, h) && StatusOf(s.store[h]) == Waiting
    requires h in s.live && h in s.store && Get(s.awaited, h, {}) == {}
    ensures h in PlanAll(s, reqs, h).live
    decreases |reqs|
  {
    hide *;
    PlanAllCases(s, reqs, h);
    if reqs != [] {
      var herd := HerdFor(s, reqs[0], h);
      var t := Plan(s, reqs[0], herd, h);
      InvShape(s, limbo, steady);
      PlanHerd(s, reqs[0], h, limbo, steady);
      PlanKeeps(s, reqs[0], herd, h, limbo, steady);
      StillHerder(s, t, {}, h);
      StillThere(s, t, {}, h);
      SettledStays(s, t, limbo, {});
      HerdForHerder(s, reqs[0], h);
      if herd != h || !Known(s, reqs[0]) {
        if herd == h {
          UnknownPlansNothing(s, reqs[0], herd, h);
          PlanAllIdle(s, reqs[1..], h, limbo, steady);
        } else {
          UnlimitedIdle(s, h);
          PlanSpares(s, reqs[0], herd, h, h, Unlimited, limbo, steady);
          SparedFacts(s, t, h, Unlimited);
          IdleApart(s, t, h);
          IdleIsLive(s, t, h, Unlimited);
          PlanAllIdle(t, reqs[1..], h, limbo, steady);
        }
      } else {
        WaitingIsReady(s, h);
        NewSheepHolds(s, reqs[0], h, h, limbo, steady);
        SheepHolds(t, reqs[1..], h, s.next, limbo, steady);
      }
    }
  }

  lemma WaitingIsReady(s: State, h: Id)
    requires h in s.store && StatusOf(s.store[h]) == Waiting
    ensures !Unready(s.store, h)
  {
  }

  lemma UnlimitedIdle(s: State, h: Id)
    requires h in s.store && StatusOf(s.store[h]) == Waiting && h in s.live && Get(s.awaited, h, {}) == {}
    ensures Sheltered(s, h, Unlimited) && forall t :: Unforced(Unlimited, t)
  {
    hide NoForce, MaxQueued, Deduped, NeverAsked;
  }

  lemma IdleApart(s: State, t: State, h: Id)
    requires Apart(s, t, h) && h in s.store && StatusOf(s.store[h]) == Waiting
    ensures Get(t.awaited, h, {}) == Get(s.awaited, h, {})
  {
  }

  lemma IdleIsLive(s: State, t: State, h: Id, m: Shelter)
    requires Spares(s, t, h, m) && h in s.live
    ensures h in t.live
  {
    hide Line, StatusOf;
  }

  lemma HerdForHerder(s: State, req: Request, h: Id)
    requires IsHerder(s.store, h)
    ensures HerdFor(s, req, h) == if req.lone then 0 else h
    ensures h in s.store && s.store[h].herd == h
  {
  }

  lemma UnknownPlansNothing(s: State, req: Request, herd: Id, parent: Id)
    requires !Known(s, req)
    ensures Plan(s, req, herd, parent) == s
  {
    PlanCases(s, req, herd, parent);
    hide Plan, Insert, Trigger, Enqueue;
  }

  /** The sheep that was just planned for a herder that has started is there when its own actions are
      over. */
  lemma NewSheepHolds(s: State, req: Request, h: Id, parent: Id, limbo: set<Id>, steady: bool)
    requires Inv(s, limbo, steady) && Settled(s, limbo) && IsHerder(s.store, h) && h in s.store
    requires !Unready(s.store, h) && h in s.live && Known(s, req)
    ensures Sheltered(Plan(s, req, h, parent), s.next, Unlimited)
    ensures s.next in Plan(s, req, h, parent).store && Plan(s, req, h, parent).store[s.next].herd == h
    ensures StatusOf(Plan(s, req, h, parent).store[s.next]) == Planned
    ensures h in Plan(s, req, h, parent).live && s.next != h
  {
    KnownIs(s, req);
    hide *;
    PlanCases(s, req, h, parent);
    var t := Insert(s, req, h, parent);
    var u := Trigger(t, s.next);
    InvShape(s, limbo, steady);
    InsertInv(s, req, h, parent, limbo, steady);
    InsertLater(s, req, h, parent);
    SettledStays(s, t, limbo, {});
    InsertSpares(s, req, h, parent, h, Unlimited);
    SparedFacts(s, t, h, Unlimited);
    IdleIsLive(s, t, h, Unlimited);
    NewSheepIsGuarded(s, req, h, parent);
    TriggerSpares(t, s.next, s.next, Unlimited, limbo, steady);
    TriggerKeeps(t, s.next, limbo, steady);
    SparedFacts(t, u, s.next, Unlimited);
    SoilSheltered(u, h, s.next, Unlimited, limbo, steady);
    SparedFacts(u, Soil(u, h), s.next, Unlimited);
  }

  lemma NewSheepIsGuarded(s: State, req: Request, h: Id, parent: Id)
    requires Shape(s) && IsHerder(s.store, h) && h in s.store && !Unready(s.store, h)
    ensures var t := Insert(s, req, h, parent);
            Sheltered(t, s.next, Unlimited) && s.next in t.store && t.store[s.next].herd == h
            && StatusOf(t.store[s.next]) == Planned
    ensures forall t :: Unforced(Unlimited, t)
  {
    InsertEffect(s, req, h, parent);
    InsertIndexes(s, req, h, parent, h);
    hide Insert, StatusOf, Shape, SameSetting, NoForce, MaxQueued, Deduped, NeverAsked;
  }

  lemma SheepHolds(s: State, reqs: seq<Request>, h: Id, j: Id, limbo: set<Id>, steady: bool)
    requires Inv(s, limbo, steady) && Settled(s, limbo) && IsHerder(s.store, h) && h in s.live && h in s.store
    requires Sheltered(s, j, Unlimited) && s.store[j].herd == h && StatusOf(s.store[j]) != Waiting
    ensures h in PlanAll(s, reqs, h).live
  {
    UnforcedUnlimited();
    hide *;
    ShelteredFacts(s, j, Unlimited);
    PlanAllSpares(s, reqs, h, j, Unlimited, limbo, steady);
    SparedFacts(s, PlanAll(s, reqs, h), j, Unlimited);
  }

  lemma UnforcedUnlimited()
    ensures forall t :: Unforced(Unlimited, t)
  {
  }

  lemma IdleHerderIsLive(s: State, h: Id, steady: bool)
    requires Inv(s, {h}, steady) && IsHerder(s.store, h) && StatusOf(s.store[h]) == Waiting
    requires Get(s.awaited, h, {}) == {}
    ensures h in Trigger(Watch(s, h), h).live
  {
    hide *;
    InvShape(s, {h}, steady);
    HerderIn(s.store, h);
    InstFacts(s, h, {h}, steady);
    var w := Watch(s, h);
    WatchIsAside(s, h, {h}, steady);
    WatchIndexes(s, h);
    TriggerCases(w, h);
    if w.script != [] {
      var t := w.(script := w.script[1..]);
      ScriptIsAside(w, w.script[1..], {h}, steady);
      HerderSettled(t, h);
      HerderOf(t.store, h);
      PlanAllIdle(t, w.script[0], h, {h}, steady);
    }
  }

  /** A herder that its executor has stopped is finished again only if it awaits sheep, all of them
      are queued, their tasks limit their queued instances, no higher than all queued ones are limited,
      the actions it triggers ask for these tasks, and none of these refuses instances: it keeps the
      last ones, or is over its limit, or instances were forced. */
  lemma FinishedAgainOnlyIf(s: State, h: Id, asFailure: bool, steady: bool)
    requires Inv(s, {h}, steady) && IsHerder(s.store, h) && StatusOf(s.store[h]) == Waiting
    ensures var t := StopHerder(s, h, asFailure);
            t.again != s.again ==>
              && Get(s.awaited, h, {}) != {}
              && forall j <- Get(s.awaited, h, {}) ::
                   && j in s.store && StatusOf(s.store[j]) == Queued
                   && 0 < MaxQueued(s, j) && !NeverAsked(s.script, s.store[j].task)
                   && (steady ==> MaxQueued(s, j) <= s.cfg.maxQueued)
                   && !(Deduped(s, s.store[j].task, false) && NoForce(t))
  {
    hide *;
    var w := Watch(s, h);
    var t := Trigger(w, h);
    InvShape(s, {h}, steady);
    HerderIn(s.store, h);
    WaitingIsStoppable(s, h);
    WatchIsAside(s, h, {h}, steady);
    WatchIndexes(s, h);
    OnceSame(s, w);
    TriggerOnce(w, h, {h}, steady);
    OnceTrans(s, w, t);
    OnceFacts(s, t, h);
    StopHerderAgain(s, h, asFailure, {h}, steady);
    if h !in t.live {
      if Get(s.awaited, h, {}) == {} {
        IdleHerderIsLive(s, h, steady);
      }
      forall j <- Get(s.awaited, h, {})
        ensures j in s.store && StatusOf(s.store[j]) == Queued && !Kept(s, StopHerder(s, h, asFailure), j, steady)
      {
        SheepOfStopped(s, h, j, steady);
        if StatusOf(s.store[j]) != Queued || Kept(s, StopHerder(s, h, asFailure), j, steady) {
          HerderIsHeld(s, h, j, asFailure, steady);
        }
      }
      forall j <- Get(s.awaited, h, {})
        ensures && j in s.store && StatusOf(s.store[j]) == Queued
                && 0 < MaxQueued(s, j) && !NeverAsked(s.script, s.store[j].task)
                && (steady ==> MaxQueued(s, j) <= s.cfg.maxQueued)
                && !(Deduped(s, s.store[j].task, false) && NoForce(StopHerder(s, h, asFailure)))
      {
        NotKept(s, StopHerder(s, h, asFailure), j, steady);
      }
    }
  }

  lemma NotKept(s: State, t: State, j: Id, steady: bool)
    requires j in s.store && !Kept(s, t, j, steady)
    ensures steady ==> MaxQueued(s, j) <= s.cfg.maxQueued
    ensures 0 < MaxQueued(s, j) && !NeverAsked(s.script, s.store[j].task)
    ensures !(Deduped(s, s.store[j].task, false) && NoForce(t))
  {
    hide Deduped, NoForce, NeverAsked, MaxQueued;
  }

  // ---------------------------------------------------------------------------------------------
  // Events
  // ---------------------------------------------------------------------------------------------

  lemma StartOnce(s: State, i: Id, steady: bool)
    requires Inv(s, {}, steady) && i in s.store && StatusOf(s.store[i]) == Queued
    ensures Start(s, i).again == s.again
  {
    hide *;
    StartCases(s, i);
    InvShape(s, {}, steady);
    QueuedFacts(s, i, {}, steady);
    var t := Start(s, i);
    if t == s {
    } else if s.store[i].herd == i && t == StopHerder(s, i, true) {
      StopHerderOnce(s, i, {}, steady);
    } else if s.store[i].herd != i && t == DropSheep(s, i, true) {
      SheepHasStartedHerder(s, i, {}, steady);
      DropSheepAgain(s, i, true, {}, steady);
    } else {
      var h :| MayLaunch(s, i, h) && t == Trigger(Launch(s, i, h), i);
      LaunchInv(s, i, h, steady);
      LaunchAgain(s, i, h);
      TriggerOnce(Launch(s, i, h), i, {}, steady);
      OnceFacts(Launch(s, i, h), t, i);
    }
  }

  lemma LaunchAgain(s: State, i: Id, h: HostId)
    ensures Launch(s, i, h).again == s.again
  {
    hide Charged, ResourcesOf;
  }

  lemma {:induction false} StartAllOnce(s: State, ids: seq<Id>, steady: bool)
    requires Inv(s, {}, steady)
    ensures StartAll(s, ids).again == s.again
    decreases |ids|
  {
    hide *;
    if ids == [] {
      StartNobody(s);
    } else {
      StartAllCases(s, ids);
      if ids[0] in s.store && StatusAt(s, ids[0]) == Queued {
        StartKeeps(s, ids[0], steady);
        StartOnce(s, ids[0], steady);
        StartAllOnce(Start(s, ids[0]), ids[1..], steady);
      } else {
        StartAllOnce(s, ids[1..], steady);
      }
    }
  }

  lemma StartNobody(s: State)
    ensures StartAll(s, []) == s
    ensures forall dirty :: ReevaluateAll(s, [], dirty) == s
    ensures CancelOrphans(s, []) == s
  {
  }

  lemma {:induction false} ReevaluateAllOnce(s: State, ids: seq<Id>, dirty: set<Id>, steady: bool)
    requires Inv(s, {}, steady)
    ensures ReevaluateAll(s, ids, dirty).again == s.again
    decreases |ids|
  {
    hide *;
    if ids == [] {
      StartNobody(s);
    } else {
      ReevaluateAllCases(s, ids, dirty);
      if ids[0] in s.store && Data(s, ids[0]).herd in dirty {
        InvShape(s, {}, steady);
        ReevaluateKeeps(s, ids[0], steady);
        ReevaluateCases(s, ids[0]);
        CancelOnce(s, ids[0], {}, steady);
        OnceFacts(s, Cancel(s, ids[0]), ids[0]);
        if Guarded(s, ids[0]) {
          EnqueueOnce(s, ids[0], {}, steady);
          OnceFacts(s, Enqueue(s, ids[0]), ids[0]);
        }
        ReevaluateAllOnce(Reevaluate(s, ids[0]), ids[1..], dirty, steady);
      } else {
        ReevaluateAllOnce(s, ids[1..], dirty, steady);
      }
    }
  }

  lemma {:induction false} CancelOrphansOnce(s: State, ids: seq<Id>, steady: bool)
    requires Inv(s, {}, steady)
    ensures CancelOrphans(s, ids).again == s.again
    decreases |ids|
  {
    if ids == [] {
    } else {
      assert Cancelable(s, ids[0]) ==> ids[0] in s.store;
      OrphansCases(s, ids);
      hide *;
      if Cancelable(s, ids[0]) && Data(s, ids[0]).task !in s.cfg.tasks {
        CancelKeeps(s, ids[0], {}, steady);
        CancelOnce(s, ids[0], {}, steady);
        OnceFacts(s, Cancel(s, ids[0]), ids[0]);
        CancelOrphansOnce(Cancel(s, ids[0]), ids[1..], steady);
      } else {
        CancelOrphansOnce(s, ids[1..], steady);
      }
    }
  }

  lemma VacateAgain(s: State, i: Id, ok: bool)
    requires i in s.busy
    ensures Vacate(s, i, ok).again == s.again && Vacate(s, i, ok).cfg == s.cfg
    ensures Vacate(s, i, ok).script == s.script
  {
    hide Data;
  }

  lemma StopSheepOnce(s: State, i: Id, steady: bool)
    requires Inv(s, {}, steady) && i in s.store && s.store[i].herd != i && StatusOf(s.store[i]) == Waiting
    ensures StopSheep(s, i).again == s.again
  {
    hide *;
    var t := Close(s, i, false);
    var u := Trigger(t, i);
    StopSheepCases(s, i);
    InvShape(s, {}, steady);
    InstFacts(s, i, {}, steady);
    SheepHasStartedHerder(s, i, {}, steady);
    CloseAgain(s, i, false);
    CloseSheepInv(s, i, false, {}, steady);
    assert {} + {i} == {i};
    StillThere(s, t, {i}, i);
    TriggerOnce(t, i, {i}, steady);
    OnceFacts(t, u, i);
    TriggerKeeps(t, i, {i}, steady);
    StaysInLimbo(t, u, i, {i}, {});
    InvShape(u, {i}, steady);
    ReleaseAgain(u, i, {i}, steady);
  }

  lemma ActivateAgain(s: State, cfg: Config)
    ensures Activate(s, cfg).again == s.again && Activate(s, cfg).cfg == cfg
  {
    ActivateEffect(s, cfg);
    hide Activate;
  }

  lemma ReloadOnce(s: State, cfg: Config, script: seq<seq<Request>>)
    requires Inv(s, {}, false)
    ensures CancelOrphans(Activate(s.(script := script), cfg), Ascending(s.live, s.next)).again == s.again
  {
    hide *;
    var t := s.(script := script);
    var u := Activate(t, cfg);
    Scripted(s, script, false);
    ActivateKeeps(t, cfg, false);
    ActivateAgain(t, cfg);
    CancelOrphansOnce(u, Ascending(s.live, s.next), false);
  }

  lemma AbortOnce(s: State, i: Id)
    requires Inv(s, {}, false)
    ensures Abort(s, i).again == s.again
  {
    AbortIs(s, i);
    hide *;
    CancelHerdAgain(s, i, {}, false);
  }

  lemma ReevaluateEventOnce(s: State, script: seq<seq<Request>>)
    requires Inv(s, {}, false)
    ensures ReevaluateAll(s.(script := script, dirty := {}), Ascending(s.live, s.next), s.dirty).again == s.again
  {
    var t := s.(script := script, dirty := {});
    assert SameHerds(s, t) && SameBooks(s, t);
    hide *;
    AsideKeeps(s, t, false);
    ReevaluateAllOnce(t, Ascending(s.live, s.next), s.dirty, false);
  }

  lemma CancelEventOnce(s: State, i: Id, script: seq<seq<Request>>)
    requires Inv(s, {}, false) && i in s.live
    ensures Cancel(s.(script := script), i).again == s.again
  {
    hide *;
    Scripted(s, script, false);
    InvShape(s, {}, false);
    LiveHerderIsKnown(s, i);
    CancelOnce(s.(script := script), i, {}, false);
    OnceFacts(s.(script := script), Cancel(s.(script := script), i), i);
  }

  lemma PlanEventOnce(s: State, req: Request, herd: Id, script: seq<seq<Request>>)
    requires Inv(s, {}, false) && (herd == 0 || IsHerder(s.store, herd))
    ensures Plan(s.(script := script), req, herd, 0).again == s.again
  {
    hide *;
    var t := s.(script := script);
    Scripted(s, script, false);
    PlanOnce(t, req, herd, 0, {}, false);
    OnceAgain(t, Plan(t, req, herd, 0));
  }

  lemma OnceAgain(s: State, t: State)
    requires Once(s, t)
    ensures t.again == s.again
  {
  }

  /** The executor of a herder stops. */
  predicate HerderStops(s: State, e: Event) {
    e.StopEvent? && Data(s, e.i).herd == e.i
  }

  /** Only an executor that stops a herder may finish it again. */
  lemma OnlyStopsFinishAgain(s: State, e: Event)
    requires Inv(s, {}, false) && Enabled(s, e) && !HerderStops(s, e)
    ensures Apply(s, e).again == s.again
  {
    hide Inv, Plan, ReevaluateAll, StartAll, Stop, Cancel, Abort, CancelOrphans, Activate, Ascending, Data;
    match e {
      case PlanEvent(req, herd, script) =>
        HerdOfEvent(s, req, herd, script);
        PlanEventOnce(s, req, herd, script);
      case ReevaluateEvent(script) => ReevaluateEventOnce(s, script);
      case StartEvent(script) => StartEventOnce(s, script);
      case StopEvent(i, ok, script) => StopEventOnce(s, i, ok, script);
      case CancelEvent(i, script) =>
        if i in s.live {
          CancelEventOnce(s, i, script);
        }
      case AbortEvent(i) => AbortOnce(s, i);
      case EnableEvent(_, _) =>
      case HostsEvent(_, _) =>
      case ReloadEvent(cfg, script) => ReloadOnce(s, cfg, script);
    }
  }

  lemma HerdOfEvent(s: State, req: Request, herd: Id, script: seq<seq<Request>>)
    requires Enabled(s, PlanEvent(req, herd, script))
    ensures herd == 0 || IsHerder(s.store, herd)
  {
  }

  lemma StartEventOnce(s: State, script: seq<seq<Request>>)
    requires Inv(s, {}, false)
    ensures StartAll(s.(script := script), Ascending(s.live, s.next)).again == s.again
  {
    hide *;
    Scripted(s, script, false);
    StartAllOnce(s.(script := script), Ascending(s.live, s.next), false);
  }

  lemma StopEventOnce(s: State, i: Id, ok: bool, script: seq<seq<Request>>)
    requires Inv(s, {}, false) && i in s.busy && Data(s, i).herd != i
    ensures Stop(s.(script := script), i, ok).again == s.again
  {
    hide *;
    var u := s.(script := script);
    var t := Vacate(u, i, ok);
    Scripted(s, script, false);
    VacateInv(u, i, ok, false);
    VacateAgain(u, i, ok);
    VacateHerd(u, i, ok);
    StopCases(u, i, ok);
    DataIsAside(s, script, i);
    StopSheepOnce(t, i, false);
  }

  lemma DataIsAside(s: State, script: seq<seq<Request>>, i: Id)
    ensures Data(s.(script := script), i) == Data(s, i)
  {
  }

  lemma VacateHerd(s: State, i: Id, ok: bool)
    requires i in s.busy
    ensures var t := Vacate(s, i, ok);
            i in t.store && t.store[i].herd == Data(s, i).herd && t.store[i].task == Data(s, i).task
            && t.awaited == s.awaited && t.cfg == s.cfg
    ensures forall j <- s.store :: j != i ==> j in Vacate(s, i, ok).store && Vacate(s, i, ok).store[j] == s.store[j]
  {
  }

  /** A task that keeps its last instances, and that has as many queued as it allows before the queue is
      full. */
  predicate Reachable(cfg: Config, t: TaskId) {
    KeepsLast(cfg, t) && cfg.tasks[t].maxQueued <= cfg.maxQueued
  }

  lemma LimitOf(s: State, t: State, j: Id)
    requires j in s.store && j in t.store && t.store[j] == s.store[j] && t.cfg == s.cfg
    ensures MaxQueued(t, j) == if s.store[j].task in s.cfg.tasks then s.cfg.tasks[s.store[j].task].maxQueued else 0
    ensures KeepsLast(s.cfg, s.store[j].task) && MaxQueued(t, j) <= s.cfg.maxQueued ==>
              Reachable(s.cfg, s.store[j].task)
  {
  }

  lemma StopWithoutForceAgain(s: State, i: Id, ok: bool, script: seq<seq<Request>>)
    requires Inv(s, {}, true) && i in s.busy && i in s.store && s.store[i].herd == i
    requires forall task :: !KeepsLast(s.cfg, task) ==> Deduped(s, task, false)
    ensures var t := Stop(s.(script := script), i, ok);
            t.again != s.again && NoForce(t) ==>
              && Get(s.awaited, i, {}) != {}
              && forall j <- Get(s.awaited, i, {}) ::
                   && j in s.store && StatusOf(s.store[j]) == Queued
                   && Reachable(s.cfg, s.store[j].task) && !NeverAsked(script, s.store[j].task)
  {
    hide *;
    var u := s.(script := script);
    var v := Vacate(u, i, ok);
    var t := Stop(u, i, ok);
    Scripted(s, script, true);
    BusyIsRunning(u, i, true);
    VacateInv(u, i, ok, true);
    VacateAgain(u, i, ok);
    VacateHerd(u, i, ok);
    DataIs(u, i);
    StopCases(u, i, ok);
    HerderOf(v.store, i);
    FinishedAgainOnlyIf(v, i, false, true);
    if t.again != s.again && NoForce(t) {
      forall j <- Get(s.awaited, i, {})
        ensures j in s.store && StatusOf(s.store[j]) == Queued
                && Reachable(s.cfg, s.store[j].task) && !NeverAsked(script, s.store[j].task)
      {
        SheepOfStopped(v, i, j, true);
        OldSheep(s, u, v, i, j, ok);
        LimitOf(s, v, j);
        if !KeepsLast(s.cfg, s.store[j].task) {
          SameDeduped(s, u, s.store[j].task, false);
          VacateCalmer(u, i, ok);
          CalmerDeduped(u, v, s.store[j].task, false);
        }
      }
    }
  }

  /** When the executor of a herder stops, no instance is forced and no action asks for one to be, the
      herder is finished again only if it awaits sheep that are all queued, of limited tasks that its
      actions ask for and that keep the last instances, with limits that can be reached. */
  lemma StoppedHerderAgain(s: State, i: Id, ok: bool, script: seq<seq<Request>>)
    requires Inv(s, {}, true) && i in s.busy && i in s.store && s.store[i].herd == i
    requires forall task :: !KeepsLast(s.cfg, task) ==> Deduped(s, task, false)
    requires NoForce(s) && ForcesNothing(script)
    ensures Stop(s.(script := script), i, ok).again != s.again ==>
              && Get(s.awaited, i, {}) != {}
              && forall j <- Get(s.awaited, i, {}) ::
                   && j in s.store && StatusOf(s.store[j]) == Queued
                   && Reachable(s.cfg, s.store[j].task) && !NeverAsked(script, s.store[j].task)
  {
    hide *;
    InvWeakens(s, {});
    StopEventMeek(s, i, ok, script);
    StopWithoutForceAgain(s, i, ok, script);
  }

  lemma OldSheep(s: State, u: State, v: State, i: Id, j: Id, ok: bool)
    requires u.store == s.store && i in u.busy && v == Vacate(u, i, ok) && j in v.store && j != i
    ensures j in s.store && v.store[j] == s.store[j]
  {
  }

  // ---------------------------------------------------------------------------------------------
  // Runs where nothing is finished again
  // ---------------------------------------------------------------------------------------------

  /** No task with a limit that can be reached keeps its last instances. */
  ghost predicate Gentle(cfg: Config) {
    forall t :: !Reachable(cfg, t)
  }

  ghost predicate GentleEvent(e: Event) {
    e.ReloadEvent? ==> Gentle(e.cfg)
  }

  lemma ForceGoesBack(s: State, t: State)
    requires Progress(s, t) && NoForce(t)
    ensures NoForce(s)
  {
    hide StatusOf;
    forall i <- s.store ensures !s.store[i].force {
      assert i in t.store && Evolves(i, s.store[i], t.store[i]);
    }
  }

  /** All tasks are within their limits, or keep the last instances and cannot reach them. */
  ghost predicate AllDeduped(s: State) {
    forall task :: Deduped(s, task, false) || (KeepsLast(s.cfg, task) && !Reachable(s.cfg, task))
  }

  lemma ApplyAllDeduped(s: State, e: Event)
    requires Inv(s, {}, true) && Enabled(s, e) && Mild(s, e) && AllDeduped(s) && GentleEvent(e)
    ensures AllDeduped(Apply(s, e))
  {
    forall task ensures
      Deduped(Apply(s, e), task, false) || (KeepsLast(Apply(s, e).cfg, task) && !Reachable(Apply(s, e).cfg, task))
    {
      OneDeduped(s, e, task);
    }
    hide *;
  }

  lemma OneDeduped(s: State, e: Event, task: TaskId)
    requires Inv(s, {}, true) && Enabled(s, e) && Mild(s, e) && AllDeduped(s) && GentleEvent(e)
    ensures Deduped(Apply(s, e), task, false)
            || (KeepsLast(Apply(s, e).cfg, task) && !Reachable(Apply(s, e).cfg, task))
  {
    assert Deduped(s, task, false) || (KeepsLast(s.cfg, task) && !Reachable(s.cfg, task));
    assert e.ReloadEvent? ==> !Reachable(e.cfg, task);
    assert e.ReloadEvent? ==> Milder(s, e.cfg);
    hide *;
    AppliedConfig(s, e);
    if !KeepsLast(Apply(s, e).cfg, task) {
      if Deduped(s, task, false) {
        ApplyDeduped(s, e, task, false);
      } else if e.ReloadEvent? {
        ReloadRoomy(s, e.cfg, e.script, task);
        ReloadIs(s, e.cfg, e.script);
      }
    }
  }

  lemma AppliedConfig(s: State, e: Event)
    requires Inv(s, {}, true) && Enabled(s, e) && Mild(s, e)
    ensures Apply(s, e).cfg == if e.ReloadEvent? then e.cfg else s.cfg
  {
    EventConfig(s, e);
    assert e.ReloadEvent? ==> Milder(s, e.cfg);
    hide *;
    ApplyKeeps(s, e, true);
    if e.ReloadEvent? {
      var t := s.(script := e.script);
      var u := Activate(t, e.cfg);
      ReloadIs(s, e.cfg, e.script);
      MilderAside(s, e.script, e.cfg);
      Scripted(s, e.script, true);
      ActivateKeeps(t, e.cfg, true);
      ActivateAgain(t, e.cfg);
      CancelOrphansKeeps(u, Ascending(s.live, s.next), true);
      FollowsConfig(u, CancelOrphans(u, Ascending(s.live, s.next)));
    }
  }

  lemma EventConfig(s: State, e: Event)
    requires Enabled(s, e)
    ensures Continues(s, e) && !e.ReloadEvent? ==> Apply(s, e).cfg == s.cfg
  {
    hide Progress, Apply, Permanent;
  }

  lemma ReloadIs(s: State, cfg: Config, script: seq<seq<Request>>)
    ensures Apply(s, ReloadEvent(cfg, script))
         == CancelOrphans(Activate(s.(script := script), cfg), Ascending(s.live, s.next))
  {
    hide CancelOrphans, Activate, Ascending;
  }

  /** A task that could not reach its limit is within the higher one of a new configuration. */
  lemma ReloadRoomy(s: State, cfg: Config, script: seq<seq<Request>>, task: TaskId)
    requires Inv(s, {}, true) && Milder(s, cfg) && KeepsLast(s.cfg, task) && !Reachable(s.cfg, task)
    requires !KeepsLast(cfg, task)
    ensures Deduped(CancelOrphans(Activate(s.(script := script), cfg), Ascending(s.live, s.next)), task, false)
  {
    hide *;
    var t := s.(script := script);
    MilderAside(s, script, cfg);
    Scripted(s, script, true);
    RoomyActivated(t, cfg, task);
    ActivateKeeps(t, cfg, true);
    CancelOrphansDeduped(Activate(t, cfg), Ascending(s.live, s.next), true, task, false);
  }

  lemma RoomyActivated(s: State, cfg: Config, task: TaskId)
    requires Inv(s, {}, true) && Milder(s, cfg) && KeepsLast(s.cfg, task) && !Reachable(s.cfg, task)
    requires !KeepsLast(cfg, task)
    ensures Deduped(Activate(s, cfg), task, false)
  {
    hide *;
    InvShape(s, {}, true);
    HerdsParts(s, {}, true);
    RoomyLimit(s, cfg, task);
    ActivateEffect(s, cfg);
    QueueIsBelow(s);
    forall criterion ensures |Kin(s.store, task, criterion)| <= s.cfg.maxQueued {
      KinAreFew(s, task, criterion, {});
    }
    StillDeduped(s.store, Activate(s, cfg), s.cfg.maxQueued, cfg, task);
  }

  lemma RoomyLimit(s: State, cfg: Config, task: TaskId)
    requires Milder(s, cfg) && KeepsLast(s.cfg, task) && !Reachable(s.cfg, task)
    ensures task in cfg.tasks && 0 < cfg.tasks[task].maxQueued ==> s.cfg.maxQueued < cfg.tasks[task].maxQueued
  {
    hide ResourcesOf, PolicyOf, Capacity;
  }

  lemma QueueIsBelow(s: State)
    requires Inv(s, {}, true)
    ensures QueueSize(s) <= s.cfg.maxQueued
  {
    InvShape(s, {}, true);
    assert Bounded(s) by { hide Herds, Slotted, Loaded, Staffed, Bounded; }
    hide *;
    HerdsParts(s, {}, true);
    QueueIsTallied(s, {});
  }

  lemma StillDeduped(store: Store, t: State, max: nat, cfg: Config, task: TaskId)
    requires t.store == store && t.cfg == cfg && !KeepsLast(cfg, task)
    requires forall criterion :: |Kin(store, task, criterion)| <= max
    requires task in cfg.tasks && 0 < cfg.tasks[task].maxQueued ==> max < cfg.tasks[task].maxQueued
    ensures Deduped(t, task, false)
  {
    hide Kin, NoForce;
  }

  lemma ApplyOnce(s: State, e: Event)
    requires Inv(s, {}, true) && Inv(s, {}, false) && Enabled(s, e) && AllDeduped(s) && NoForce(Apply(s, e))
    ensures Apply(s, e).again == s.again
  {
    if HerderStops(s, e) {
      assert e.i in s.busy && e.i in s.store && s.store[e.i].herd == e.i;
      assert forall task :: Deduped(s, task, false) ==> !KeepsLast(s.cfg, task);
      assert Apply(s, e) == Stop(s.(script := e.script), e.i, e.ok);
      hide *;
      StopWithoutForceAgain(s, e.i, e.ok, e.script);
    } else {
      hide *;
      OnlyStopsFinishAgain(s, e);
    }
  }

  lemma InvWeakens(s: State, limbo: set<Id>)
    requires Inv(s, limbo, true)
    ensures Inv(s, limbo, false)
  {
    hide Shape, Clean, Indexed, Herding, Judged, Staffed, Slotted, Loaded, Bounded;
  }

  lemma {:induction false} RunOnce(s: State, events: seq<Event>)
    requires Inv(s, {}, true) && Possible(s, events) && Steady(s, events) && AllDeduped(s) && s.again == []
    requires (forall e <- events :: GentleEvent(e)) && NoForce(After(s, events))
    ensures After(s, events).again == []
    decreases |events|
  {
    if events != [] {
      var t := Apply(s, events[0]);
      assert events[0] in events && forall e <- events[1..] :: e in events;
      assert Possible(t, events[1..]) && Enabled(s, events[0]);
      assert Mild(s, events[0]) && Steady(t, events[1..]);
      assert After(s, events) == After(t, events[1..]);
      hide *;
      ApplyKeeps(s, events[0], true);
      RunKeeps(t, events[1..], true);
      ForceGoesBack(t, After(t, events[1..]));
      InvWeakens(s, {});
      ApplyOnce(s, events[0]);
      ApplyAllDeduped(s, events[0]);
      RunOnce(t, events[1..]);
    }
  }

  /** In a steady run without forced instances, where no task with a limit that can be reached keeps its
      last instances, nothing is finished twice. */
  lemma NothingIsFinishedTwice(cfg: Config, up: set<HostId>, order: map<string, seq<HostId>>, events: seq<Event>)
    requires Possible(Initial(cfg, up, order), events) && Steady(Initial(cfg, up, order), events)
    requires Gentle(cfg) && (forall e <- events :: GentleEvent(e)) && NoForce(After(Initial(cfg, up, order), events))
    ensures After(Initial(cfg, up, order), events).again == []
  {
    var s := Initial(cfg, up, order);
    assert AllDeduped(s) by {
      assert forall task, c :: Kin(s.store, task, c) == {};
    }
    assert s.again == [];
    hide *;
    InitialInv(cfg, up, order, true);
    RunOnce(s, events);
  }

  /** In such a run the accounts are exact: the running count of a task is the number of its running
      and waiting instances, what a host has in use is what those that target it need, and a task
      that needs one of a resource has no more of them on a host than the host has of it. */
  lemma AccountsAreExact(cfg: Config, up: set<HostId>, order: map<string, seq<HostId>>, events: seq<Event>,
                         t: TaskId, h: HostId, k: Kind)
    requires Possible(Initial(cfg, up, order), events) && Steady(Initial(cfg, up, order), events)
    requires Gentle(cfg) && (forall e <- events :: GentleEvent(e)) && NoForce(After(Initial(cfg, up, order), events))
    ensures var s := After(Initial(cfg, up, order), events);
            && (t in s.cfg.tasks ==> Get(s.count, t, 0) == |Holding(s.store, t)| <= s.cfg.tasks[t].maxInstances)
            && Used(s.used, h, k) == Tally(s.store, Active, OnHost(s.cfg, h, k)) <= Capacity(s.cfg, h, k)
            && (1 <= Get(ResourcesOf(s.cfg, t), k, 0) ==> |ActiveOn(s.store, t, h)| <= Capacity(s.cfg, h, k))
  {
    var s := After(Initial(cfg, up, order), events);
    assert Reached(s, true);
    hide *;
    NothingIsFinishedTwice(cfg, up, order, events);
    ResourcesInUse(s, h, k);
    if t in s.cfg.tasks {
      RunningCountIsRight(s, t);
    }
    if 1 <= Get(ResourcesOf(s.cfg, t), k, 0) {
      MaxPerHost(s, t, h, k);
    }
  }
}
