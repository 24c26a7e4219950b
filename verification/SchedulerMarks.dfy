/** No change of a herd goes unnoticed: what can decide a wait of its sheep marks the herd, so that its
    planned sheep are reevaluated. */
module SchedulerMarks {
  import opened TaskStatus
  import opened SchedulerModel
  import opened SchedulerInvariants
  import opened SchedulerHerds
  import opened SchedulerBooks
  import opened SchedulerSteps
  import opened SchedulerActions
  import opened SchedulerRuns
  import opened SchedulerTheorems
  import opened SchedulerQueue
  import opened SchedulerLines
  import opened SchedulerForce

  // ---------------------------------------------------------------------------------------------
  // What marks a herd
  // ---------------------------------------------------------------------------------------------

  /** No sheep of a herder is new, none has finished, and it has not begun to wait. */
  ghost predicate Calm(s: State, t: State, h: Id) {
    && (forall j <- t.store | t.store[j].herd == h && j != h ::
          j in s.store && (Done(t.store, j) ==> Done(s.store, j)))
    && (h in s.store && h in t.store && StatusOf(t.store[h]) == Waiting ==> StatusOf(s.store[h]) == Waiting)
  }

  /** Every live herder, but for some, for which something happened is marked. */
  ghost predicate Marks(s: State, t: State, but: set<Id>) {
    && s.dirty <= t.dirty
    && (forall i <- s.store :: i in t.store && t.store[i].herd == s.store[i].herd && (i !in s.live ==> i !in t.live))
    && (forall h <- t.live :: h !in but && IsHerder(s.store, h) && h !in t.dirty ==> Calm(s, t, h))
  }

  lemma CalmTrans(s: State, t: State, u: State, h: Id)
    requires Calm(s, t, h) && Calm(t, u, h) && IsHerder(s.store, h)
    requires forall i <- s.store :: i in t.store && t.store[i].herd == s.store[i].herd
    requires forall i <- t.store :: i in u.store && u.store[i].herd == t.store[i].herd
    ensures Calm(s, u, h)
  {
    hide StatusOf;
  }

  lemma MarksTrans(s: State, t: State, u: State, but: set<Id>)
    requires Marks(s, t, but) && Marks(t, u, {})
    ensures Marks(s, u, but)
  {
    hide Calm;
    forall h <- u.live | h !in but && IsHerder(s.store, h) && h !in u.dirty ensures Calm(s, u, h) {
      assert h in t.store && h in t.live;
      CalmTrans(s, t, u, h);
    }
  }

  lemma MarksBoth(s: State, t: State, u: State)
    requires Marks(s, t, {}) && Marks(t, u, {})
    ensures Marks(s, u, {})
  {
    hide *;
    MarksTrans(s, t, u, {});
  }

  /** The one that was left out is marked after all, or gone. */
  lemma MarkedAfterAll(s: State, t: State, h: Id)
    requires Marks(s, t, {h}) && (h in t.live ==> h in t.dirty)
    ensures Marks(s, t, {})
  {
    hide Calm;
  }

  lemma MarksAside(s: State, t: State)
    requires t.store == s.store && t.live <= s.live && s.dirty <= t.dirty
    ensures Marks(s, t, {})
  {
    hide StatusOf;
  }

  /** One instance changes: it does not finish, nor begin to wait if it is a herder. */
  lemma MarksPut(s: State, t: State, i: Id, inst: Inst)
    requires i in s.store && t.store == s.store[i := inst] && t.dirty == s.dirty && t.live <= s.live + {i}
    requires inst.herd == s.store[i].herd && !Finished(StatusOf(inst)) && i in s.live
    requires StatusOf(inst) == Waiting ==> inst.herd != i
    ensures Marks(s, t, {})
  {
    hide StatusOf;
  }

  lemma MarksSoil(s: State, h: Id)
    ensures Marks(s, Soil(s, h), {}) && h in Soil(s, h).dirty
  {
    MarksAside(s, Soil(s, h));
    hide Marks;
  }

  lemma InsertMarks(s: State, req: Request, herd: Id, parent: Id)
    requires Shape(s) && (herd == 0 || IsHerder(s.store, herd))
    ensures Marks(s, Insert(s, req, herd, parent), {herd})
  {
    var herded := herd in s.live && herd in s.store;
    var inst := NewInst(s.next, req, herd, herded, parent);
    NewInstIsNewborn(s, req, herd, parent);
    EnterEffect(s, inst, herd, herded);
    assert inst.herd == if herd == 0 then s.next else herd;
    assert s.live <= s.store.Keys;
    hide *;
    InsertIsEnter(s, req, herd, parent);
    EnterMarks(s, Enter(s, inst, herd, herded), inst, herd);
  }

  lemma InsertIsEnter(s: State, req: Request, herd: Id, parent: Id)
    ensures var herded := herd in s.live && herd in s.store;
            Insert(s, req, herd, parent) == Enter(s, NewInst(s.next, req, herd, herded, parent), herd, herded)
  {
    hide Enter, NewInst;
  }

  lemma EnterMarks(s: State, t: State, inst: Inst, herd: Id)
    requires t.store.Keys == s.store.Keys + {s.next} && t.store[s.next] == inst && s.next !in s.store
    requires forall i <- s.store :: StatusOf(t.store[i]) == StatusOf(s.store[i]) && t.store[i].herd == s.store[i].herd
    requires inst.herd == (if herd == 0 then s.next else herd) && t.dirty == s.dirty && t.live == s.live + {s.next}
    ensures Marks(s, t, {herd})
  {
    hide StatusOf;
  }

  lemma FinishHerderMarks(s: State, h: Id, asFailure: bool)
    requires IsHerder(s.store, h) && Coherent(s.store[h])
    ensures Marks(s, FinishHerder(s, h, asFailure), {}) && h !in FinishHerder(s, h, asFailure).live
  {
    hide *;
    var gone := FinishHerderEffect(s, h, asFailure);
    FinishHerderDirt(s, h, asFailure);
    HerderGoneMarks(s, FinishHerder(s, h, asFailure), h, Closed(s, h, asFailure), gone);
  }

  lemma HerderGoneMarks(s: State, t: State, h: Id, inst: Inst, gone: set<Id>)
    requires HerderGone(s, t, h, inst, gone) && t.dirty == s.dirty
    ensures Marks(s, t, {}) && h !in t.live
  {
    hide StatusOf;
  }

  lemma FinishHerderDirt(s: State, h: Id, asFailure: bool)
    ensures FinishHerder(s, h, asFailure).dirty == s.dirty
  {
    CloseDirt(s, h, asFailure);
    hide Close, Sheep, StatusOf;
  }

  lemma CloseDirt(s: State, i: Id, asFailure: bool)
    ensures Close(s, i, asFailure).dirty == s.dirty
  {
    hide Closed, Credited, ResourcesOf, Get;
  }

  /** A finished sheep that is no longer awaited marks its herder, or ends it. */
  lemma ReleaseMarks(s: State, i: Id, limbo: set<Id>, steady: bool)
    requires Herds(s, limbo, steady) && InLimbo(s, i, limbo)
    ensures i in s.store
    ensures var t := Release(Forget(s, i), i);
            && Marks(s, t, {}) && (s.store[i].herd in t.live ==> s.store[i].herd in t.dirty)
  {
    hide *;
    SheepIsNotHerder(s, i, limbo);
    var h := s.store[i].herd;
    if h in s.live {
      var t := Unawait(s, i);
      StillAwaited(s, i, limbo, steady);
      ReleaseCases(s, i);
      InstFacts(s, h, limbo, steady);
      UnawaitSame(s, i, h);
      UnawaitAside(s, i);
      SameHerder(s, t, h);
      MarksAside(s, t);
      FinishHerderMarks(t, h, false);
      MarksSoil(t, h);
      MarksBoth(s, t, Release(Forget(s, i), i));
    } else {
      NoIndexes(s, h, limbo, steady);
      OrphanReleased(s, i);
      OrphanIs(s, i);
      MarksAside(s, Release(Forget(s, i), i));
    }
  }

  lemma OrphanIs(s: State, i: Id)
    requires i in s.store && s.store[i].herd != i && s.store[i].herd !in s.live && s.store[i].herd !in s.awaited
    ensures Release(Forget(s, i), i) == s.(live := s.live - {i})
  {
    hide FinishHerder, StatusOf, Sheep;
    assert Forget(s, i) == s.(live := s.live - {i});
    hide Forget;
  }

  lemma UnawaitAside(s: State, i: Id)
    ensures Unawait(s, i).store == s.store && Unawait(s, i).live == s.live && Unawait(s, i).dirty == s.dirty
  {
  }

  // ---------------------------------------------------------------------------------------------
  // The steps
  // ---------------------------------------------------------------------------------------------

  lemma DropSheepMarks(s: State, i: Id, asFailure: bool, limbo: set<Id>, steady: bool)
    requires Inv(s, limbo, steady) && i in s.store && s.store[i].herd != i && Unready(s.store, i)
    requires Unready(s.store, s.store[i].herd) ==> !asFailure
    ensures Marks(s, DropSheep(s, i, asFailure), {})
  {
    hide *;
    var t := Close(s, i, asFailure);
    var u := DropSheep(s, i, asFailure);
    DropSheepIs(s, i, asFailure);
    InvShape(s, limbo, steady);
    InstFacts(s, i, limbo, steady);
    CloseSheepInv(s, i, asFailure, limbo, steady);
    InvShape(t, limbo + {i}, steady);
    CloseMarks(s, i, asFailure);
    ReleaseMarks(t, i, limbo + {i}, steady);
    MarksTrans(s, t, u, {s.store[i].herd});
    MarkedAfterAll(s, u, s.store[i].herd);
  }

  lemma DropSheepIs(s: State, i: Id, asFailure: bool)
    ensures DropSheep(s, i, asFailure) == Release(Forget(Close(s, i, asFailure), i), i)
  {
    hide Release, Forget, Close;
  }

  /** A sheep finishes. */
  lemma CloseMarks(s: State, i: Id, asFailure: bool)
    requires i in s.store && s.store[i].herd != i && Coherent(s.store[i])
    ensures var t := Close(s, i, asFailure);
            Marks(s, t, {s.store[i].herd}) && i in t.store && t.store[i].herd == s.store[i].herd
  {
    hide *;
    ClosedEffect(s, i, asFailure);
    CloseEffect(s, i, asFailure);
    CloseDirt(s, i, asFailure);
    PutMarks(s, Close(s, i, asFailure), i, Closed(s, i, asFailure));
  }

  lemma PutMarks(s: State, t: State, i: Id, inst: Inst)
    requires Rewritten(s, t, i, inst) && i in s.store && SameHerd(inst, s.store[i]) && t.dirty == s.dirty
    requires s.store[i].herd != i
    ensures Marks(s, t, {s.store[i].herd}) && i in t.store && t.store[i].herd == s.store[i].herd
  {
    hide StatusOf;
  }

  lemma {:induction false} DropSheepOfMarks(s: State, ids: seq<Id>, h: Id, limbo: set<Id>, steady: bool)
    requires Inv(s, limbo, steady) && AreSheep(s, ids, h)
    ensures Marks(s, DropSheepOf(s, ids), {})
    decreases |ids|
  {
    if ids == [] {
      MarksAside(s, s);
    } else {
      assert AreSheep(s, ids[1..], h) && ids[0] in ids;
      var t := if Cancelable(s, ids[0]) then DropSheep(s, ids[0], false) else s;
      assert DropSheepOf(s, ids) == DropSheepOf(t, ids[1..]);
      hide Inv, DropSheep, DropSheepOf, StatusOf, Later, Marks;
      if Cancelable(s, ids[0]) {
        DropSheepInv(s, ids[0], false, limbo, steady);
        SheepStay(s, t, ids[1..], h, {ids[0]});
        DropSheepMarks(s, ids[0], false, limbo, steady);
      } else {
        MarksAside(s, s);
      }
      DropSheepOfMarks(t, ids[1..], h, limbo, steady);
      MarksBoth(s, t, DropSheepOf(t, ids[1..]));
    }
  }

  lemma CancelHerdMarks(s: State, h: Id, limbo: set<Id>, steady: bool)
    requires Inv(s, limbo, steady)
    ensures Marks(s, CancelHerd(s, h), {})
  {
    hide *;
    InvShape(s, limbo, steady);
    SheepAreSheep(s, h, limbo, steady);
    CancelHerdIs(s, h);
    DropSheepOfMarks(s, Ascending(Sheep(s, h), s.next), h, limbo, steady);
  }

  lemma {:induction false} PlanAllMarks(s: State, reqs: seq<Request>, i: Id, limbo: set<Id>, steady: bool)
    requires Inv(s, limbo, steady) && i in s.store
    ensures Marks(s, PlanAll(s, reqs, i), {})
    decreases |s.script|, 7, |reqs|
  {
    hide *;
    PlanAllCases(s, reqs, i);
    if reqs == [] {
      MarksAside(s, s);
    } else {
      var herd := HerdFor(s, reqs[0], i);
      var t := Plan(s, reqs[0], herd, i);
      InvShape(s, limbo, steady);
      PlanHerd(s, reqs[0], i, limbo, steady);
      PlanKeeps(s, reqs[0], herd, i, limbo, steady);
      StillThere(s, t, {}, i);
      PlanMarks(s, reqs[0], herd, i, limbo, steady);
      PlanAllMarks(t, reqs[1..], i, limbo, steady);
      MarksBoth(s, t, PlanAll(s, reqs, i));
    }
  }

  lemma {:induction false} TriggerMarks(s: State, i: Id, limbo: set<Id>, steady: bool)
    requires Inv(s, limbo, steady) && i in s.store
    ensures Marks(s, Trigger(s, i), {})
    decreases |s.script|, 0, 0
  {
    hide *;
    TriggerCases(s, i);
    if s.script == [] {
      MarksAside(s, s);
    } else {
      var t := s.(script := s.script[1..]);
      ScriptIsAside(s, s.script[1..], limbo, steady);
      MarksAside(s, t);
      PlanAllMarks(t, s.script[0], i, limbo, steady);
      MarksBoth(s, t, Trigger(s, i));
    }
  }

  lemma {:induction false} PlanMarks(s: State, req: Request, herd: Id, parent: Id, limbo: set<Id>, steady: bool)
    requires Inv(s, limbo, steady) && (herd == 0 || IsHerder(s.store, herd))
    ensures Marks(s, Plan(s, req, herd, parent), {})
    decreases |s.script|, 6, 0
  {
    hide *;
    PlanCases(s, req, herd, parent);
    if req.task in s.cfg.tasks && req.task in s.enabled {
      var t := Insert(s, req, herd, parent);
      var u := Trigger(t, s.next);
      var v := Plan(s, req, herd, parent);
      InvShape(s, limbo, steady);
      NewIsGuarded(s, req, herd, parent);
      InsertInv(s, req, herd, parent, limbo, steady);
      InsertMarks(s, req, herd, parent);
      TriggerMarks(t, s.next, limbo, steady);
      TriggerKeeps(t, s.next, limbo, steady);
      MarksTrans(s, t, u, {herd});
      if herd in s.live && herd in s.store {
        MarksSoil(u, herd);
        MarksTrans(s, u, v, {herd});
      } else {
        LiveHerderIsKnown(s, herd);
        InvShape(t, limbo, steady);
        GuardedStays(t, u, {}, s.next);
        EnqueueMarks(u, s.next, limbo, steady);
        MarksTrans(s, u, v, {herd});
        EnqueueKeeps(u, s.next, limbo, steady);
        InvShape(v, limbo, steady);
        StaysDead(s, herd, v);
      }
      MarkedAfterAll(s, v, herd);
    } else {
      MarksAside(s, s);
    }
  }

  /** A herd without a live herder. */
  lemma StaysDead(s: State, herd: Id, v: State)
    requires Marks(s, v, {herd}) && Shape(v) && !(herd in s.live && herd in s.store)
    requires herd == 0 || IsHerder(s.store, herd)
    ensures herd !in v.live
  {
    hide Coherent, StatusOf, Calm;
  }

  lemma AdmitMarks(s: State, i: Id)
    requires i in s.store && StatusOf(s.store[i]) == Planned && i in s.live
    ensures Marks(s, Admit(s, i), {})
  {
    var t := Admit(s, i);
    if t == s {
      MarksAside(s, s);
    } else {
      assert t == s.(store := s.store[i := s.store[i].(queued := true)], live := s.live + {i}) by { hide QueueSize; }
      assert StatusOf(s.store[i].(queued := true)) == Queued;
      hide Admit, StatusOf, Marks;
      MarksPut(s, t, i, s.store[i].(queued := true));
    }
  }

  lemma {:induction false} EnqueueMarks(s: State, i: Id, limbo: set<Id>, steady: bool)
    requires Inv(s, limbo, steady) && Guarded(s, i)
    ensures Marks(s, Enqueue(s, i), {})
    decreases |s.script|, 5, 0
  {
    hide *;
    EnqueueCases(s, i);
    InvShape(s, limbo, steady);
    PlannedIsUnready(s, i);
    InstFacts(s, i, limbo, steady);
    AdmitMarks(s, i);
    if !Data(s, i).force && Data(s, i).task !in s.enabled {
      CancelMarks(s, i, limbo, steady);
    } else if !Data(s, i).force && MaxQueued(s, i) != 0 {
      var surplus := Surplus(Duplicates(s, i), MaxQueued(s, i), KeepLast(s, i));
      var except := if i in surplus then {i} else {};
      var u := CancelAll(s, surplus);
      SurplusCancels(s, i);
      CancelAllKeeps(s, surplus, except, limbo, steady);
      CancelAllMarks(s, surplus, except, limbo, steady);
      if i !in surplus {
        GuardedStays(s, u, {}, i);
        InvShape(u, limbo, steady);
        PlannedIsUnready(u, i);
        InstFacts(u, i, limbo, steady);
        AdmitMarks(u, i);
        MarksBoth(s, u, Admit(u, i));
      }
    }
  }

  lemma {:induction false} CancelAllMarks(s: State, ids: seq<Id>, except: set<Id>, limbo: set<Id>, steady: bool)
    requires Inv(s, limbo, steady) && Cancels(s, ids, except)
    ensures Marks(s, CancelAll(s, ids), {})
    decreases |s.script|, 4, |ids|
  {
    hide *;
    CancelAllCases(s, ids);
    if ids == [] {
      MarksAside(s, s);
    } else {
      var t := Cancel(s, ids[0]);
      FirstCancels(s, ids, except);
      CancelKeeps(s, ids[0], limbo, steady);
      CancelsStays(s, t, ids, except, {ids[0]});
      CancelMarks(s, ids[0], limbo, steady);
      CancelAllMarks(t, ids[1..], except, limbo, steady);
      MarksBoth(s, t, CancelAll(s, ids));
    }
  }

  lemma {:induction false} CancelMarks(s: State, i: Id, limbo: set<Id>, steady: bool)
    requires Inv(s, limbo, steady) && i in s.store
    ensures Marks(s, Cancel(s, i), {})
    decreases |s.script|, 3, 0
  {
    hide *;
    CancelCases(s, i);
    InvShape(s, limbo, steady);
    InstFacts(s, i, limbo, steady);
    if !Unready(s.store, i) {
      MarksAside(s, s);
    } else if s.store[i].herd != i {
      DropSheepMarks(s, i, false, limbo, steady);
    } else {
      var t := CancelHerd(s, i);
      HerderOf(s.store, i);
      CancelHerdInv(s, i, limbo, steady);
      CancelHerdMarks(s, i, limbo, steady);
      UnreadyIsStoppable(s, t, i, limbo);
      StopHerderMarks(t, i, false, limbo, steady);
      MarksTrans(s, t, Cancel(s, i), {});
    }
  }

  lemma {:induction false} StopHerderMarks(s: State, h: Id, asFailure: bool, limbo: set<Id>, steady: bool)
    requires Inv(s, limbo, steady) && Stoppable(s, h, limbo)
    ensures var t := StopHerder(s, h, asFailure);
            Marks(s, t, {}) && (h in t.live ==> h in t.dirty)
    decreases |s.script|, 2, 0
  {
    hide *;
    var w := Watch(s, h);
    var t := Trigger(w, h);
    var u := StopHerder(s, h, asFailure);
    StoppableFacts(s, h, limbo);
    StopHerderCases(s, h, asFailure);
    WatchIsAside(s, h, limbo, steady);
    WatchDirt(s, h);
    MarksAside(s, w);
    TriggerKeeps(w, h, limbo, steady);
    TriggerMarks(w, h, limbo, steady);
    MarksBoth(s, w, t);
    InvShape(s, limbo, steady);
    LaterThen(s, w, t, {});
    NotRunning(s, t, h, limbo, steady);
    MarksSoil(t, h);
    FinishHerderMarks(t, h, asFailure);
    MarksBoth(s, t, u);
  }

  lemma WatchDirt(s: State, h: Id)
    ensures Watch(s, h).store == s.store && Watch(s, h).live == s.live && Watch(s, h).dirty == s.dirty
  {
    hide Data;
  }

  // ---------------------------------------------------------------------------------------------
  // Events
  // ---------------------------------------------------------------------------------------------

  lemma LaunchMarks(s: State, i: Id, h: HostId)
    requires i in s.store && StatusOf(s.store[i]) == Queued && Coherent(s.store[i]) && i in s.live
    ensures Marks(s, Launch(s, i, h), {})
  {
    LaunchRewrites(s, i, h);
    LaunchDirt(s, i, h);
    hide Launch, StatusOf, Coherent, Marks;
    MarksPut(s, Launch(s, i, h), i, s.store[i].(target := h, started := true));
  }

  lemma LaunchDirt(s: State, i: Id, h: HostId)
    ensures Launch(s, i, h).dirty == s.dirty && Launch(s, i, h).live == s.live
  {
    hide Charged, ResourcesOf;
  }

  lemma StartMarks(s: State, i: Id, steady: bool)
    requires Inv(s, {}, steady) && i in s.store && StatusOf(s.store[i]) == Queued
    ensures Marks(s, Start(s, i), {})
  {
    hide *;
    StartCases(s, i);
    InvShape(s, {}, steady);
    QueuedFacts(s, i, {}, steady);
    InstFacts(s, i, {}, steady);
    var t := Start(s, i);
    if t == s {
      MarksAside(s, s);
    } else if s.store[i].herd == i && t == StopHerder(s, i, true) {
      QueuedIsStoppable(s, i);
      StopHerderMarks(s, i, true, {}, steady);
    } else if s.store[i].herd != i && t == DropSheep(s, i, true) {
      SheepHasStartedHerder(s, i, {}, steady);
      DropSheepMarks(s, i, true, {}, steady);
    } else {
      var h :| MayLaunch(s, i, h) && t == Trigger(Launch(s, i, h), i);
      LaunchInv(s, i, h, steady);
      LaunchMarks(s, i, h);
      TriggerMarks(Launch(s, i, h), i, {}, steady);
      MarksBoth(s, Launch(s, i, h), t);
    }
  }

  lemma NobodyMarks(s: State)
    ensures Marks(s, StartAll(s, []), {}) && Marks(s, CancelOrphans(s, []), {})
    ensures forall dirty :: Marks(s, ReevaluateAll(s, [], dirty), {})
  {
    MarksAside(s, s);
    hide Marks;
  }

  lemma {:induction false} StartAllMarks(s: State, ids: seq<Id>, steady: bool)
    requires Inv(s, {}, steady)
    ensures Marks(s, StartAll(s, ids), {})
    decreases |ids|
  {
    hide *;
    if ids == [] {
      NobodyMarks(s);
    } else {
      StartAllCases(s, ids);
      if ids[0] in s.store && StatusAt(s, ids[0]) == Queued {
        StartKeeps(s, ids[0], steady);
        StartMarks(s, ids[0], steady);
        StartAllMarks(Start(s, ids[0]), ids[1..], steady);
        MarksBoth(s, Start(s, ids[0]), StartAll(s, ids));
      } else {
        StartAllMarks(s, ids[1..], steady);
      }
    }
  }

  lemma {:induction false} ReevaluateAllMarks(s: State, ids: seq<Id>, dirty: set<Id>, steady: bool)
    requires Inv(s, {}, steady)
    ensures Marks(s, ReevaluateAll(s, ids, dirty), {})
    decreases |ids|
  {
    hide *;
    if ids == [] {
      NobodyMarks(s);
    } else {
      ReevaluateAllCases(s, ids, dirty);
      if ids[0] in s.store && Data(s, ids[0]).herd in dirty {
        InvShape(s, {}, steady);
        ReevaluateCases(s, ids[0]);
        ReevaluateKeeps(s, ids[0], steady);
        CancelMarks(s, ids[0], {}, steady);
        MarksAside(s, s);
        if Guarded(s, ids[0]) {
          EnqueueMarks(s, ids[0], {}, steady);
        }
        ReevaluateAllMarks(Reevaluate(s, ids[0]), ids[1..], dirty, steady);
        MarksBoth(s, Reevaluate(s, ids[0]), ReevaluateAll(s, ids, dirty));
      } else {
        ReevaluateAllMarks(s, ids[1..], dirty, steady);
      }
    }
  }

  lemma {:induction false} CancelOrphansMarks(s: State, ids: seq<Id>, steady: bool)
    requires Inv(s, {}, steady)
    ensures Marks(s, CancelOrphans(s, ids), {})
    decreases |ids|
  {
    if ids == [] {
      hide *;
      NobodyMarks(s);
    } else {
      assert Cancelable(s, ids[0]) ==> ids[0] in s.store;
      OrphansCases(s, ids);
      hide *;
      if Cancelable(s, ids[0]) && Data(s, ids[0]).task !in s.cfg.tasks {
        CancelKeeps(s, ids[0], {}, steady);
        CancelMarks(s, ids[0], {}, steady);
        CancelOrphansMarks(Cancel(s, ids[0]), ids[1..], steady);
        MarksBoth(s, Cancel(s, ids[0]), CancelOrphans(s, ids));
      } else {
        CancelOrphansMarks(s, ids[1..], steady);
      }
    }
  }

  lemma VacateMarks(s: State, i: Id, ok: bool)
    requires i in s.busy && i in s.store && StatusOf(s.store[i]) == Running && i in s.live
    ensures Marks(s, Vacate(s, i, ok), if s.store[i].herd == i then {i} else {})
  {
    var t := Vacate(s, i, ok);
    var inst := s.store[i].(stopped := true, success := ok, reported := ok);
    assert StatusOf(inst) == Waiting && t.store == s.store[i := inst] && t.live == s.live && t.dirty == s.dirty;
    hide Vacate, StatusOf;
    if s.store[i].herd != i {
      MarksPut(s, t, i, inst);
    }
  }

  lemma StopSheepMarks(s: State, i: Id, steady: bool)
    requires Inv(s, {}, steady) && i in s.store && s.store[i].herd != i && StatusOf(s.store[i]) == Waiting
    ensures Marks(s, StopSheep(s, i), {})
  {
    hide *;
    var t := Close(s, i, false);
    var u := Trigger(t, i);
    var v := StopSheep(s, i);
    StopSheepCases(s, i);
    InvShape(s, {}, steady);
    InstFacts(s, i, {}, steady);
    SheepHasStartedHerder(s, i, {}, steady);
    CloseMarks(s, i, false);
    CloseSheepInv(s, i, false, {}, steady);
    assert {} + {i} == {i};
    StillThere(s, t, {i}, i);
    TriggerMarks(t, i, {i}, steady);
    TriggerKeeps(t, i, {i}, steady);
    StaysInLimbo(t, u, i, {i}, {});
    InvShape(u, {i}, steady);
    StillThere(t, u, {}, i);
    ReleaseMarks(u, i, {i}, steady);
    MarksTrans(s, t, u, {s.store[i].herd});
    MarksTrans(s, u, v, {s.store[i].herd});
    MarkedAfterAll(s, v, s.store[i].herd);
  }

  lemma StopMarks(s: State, i: Id, ok: bool, steady: bool)
    requires Inv(s, {}, steady) && i in s.busy
    ensures Marks(s, Stop(s, i, ok), {})
  {
    hide *;
    var t := Vacate(s, i, ok);
    BusyIsRunning(s, i, steady);
    VacateInv(s, i, ok, steady);
    VacateMarks(s, i, ok);
    VacateLine(s, i, ok);
    LineHerd(s.store, t.store, i);
    StopCases(s, i, ok);
    if t.store[i].herd == i {
      StopHerderMarks(t, i, false, {i}, steady);
      MarksTrans(s, t, Stop(s, i, ok), {i});
      MarkedAfterAll(s, Stop(s, i, ok), i);
    } else {
      StopSheepMarks(t, i, steady);
      MarksBoth(s, t, Stop(s, i, ok));
    }
  }

  lemma LineHerd(a: Store, b: Store, i: Id)
    requires KeepsLine(a, b, {}) && i in a
    ensures i in b && b[i].herd == a[i].herd
  {
    hide StatusOf;
  }

  lemma Aside(s: State, t: State, u: State)
    requires t.store == s.store && t.live == s.live && t.dirty == s.dirty && Marks(t, u, {})
    ensures Marks(s, u, {})
  {
    hide *;
    MarksAside(s, t);
    MarksBoth(s, t, u);
  }

  lemma PlanEventMarks(s: State, req: Request, herd: Id, script: seq<seq<Request>>)
    requires Inv(s, {}, false) && (herd == 0 || IsHerder(s.store, herd))
    ensures Marks(s, Plan(s.(script := script), req, herd, 0), {})
  {
    hide *;
    var t := s.(script := script);
    Scripted(s, script, false);
    assert IsHerder(t.store, herd) == IsHerder(s.store, herd);
    PlanMarks(t, req, herd, 0, {}, false);
    Aside(s, t, Plan(t, req, herd, 0));
  }

  lemma ReevaluateEventMarks(s: State, script: seq<seq<Request>>)
    requires Inv(s, {}, false)
    ensures Marks(s.(dirty := {}), ReevaluateAll(s.(script := script, dirty := {}), Ascending(s.live, s.next), s.dirty),
                  {})
  {
    var t := s.(script := script, dirty := {});
    assert SameHerds(s, t) && SameBooks(s, t);
    hide *;
    AsideKeeps(s, t, false);
    ReevaluateAllMarks(t, Ascending(s.live, s.next), s.dirty, false);
    Aside(s.(dirty := {}), t, ReevaluateAll(t, Ascending(s.live, s.next), s.dirty));
  }

  lemma StartEventMarks(s: State, script: seq<seq<Request>>)
    requires Inv(s, {}, false)
    ensures Marks(s, StartAll(s.(script := script), Ascending(s.live, s.next)), {})
  {
    hide *;
    var t := s.(script := script);
    Scripted(s, script, false);
    StartAllMarks(t, Ascending(s.live, s.next), false);
    Aside(s, t, StartAll(t, Ascending(s.live, s.next)));
  }

  lemma StopEventMarks(s: State, i: Id, ok: bool, script: seq<seq<Request>>)
    requires Inv(s, {}, false) && i in s.busy
    ensures Marks(s, Stop(s.(script := script), i, ok), {})
  {
    hide *;
    var t := s.(script := script);
    Scripted(s, script, false);
    StopMarks(t, i, ok, false);
    Aside(s, t, Stop(t, i, ok));
  }

  lemma CancelEventMarks(s: State, i: Id, script: seq<seq<Request>>)
    requires Inv(s, {}, false) && i in s.live
    ensures Marks(s, Cancel(s.(script := script), i), {})
  {
    hide *;
    var t := s.(script := script);
    Scripted(s, script, false);
    InvShape(s, {}, false);
    LiveHerderIsKnown(s, i);
    CancelMarks(t, i, {}, false);
    Aside(s, t, Cancel(t, i));
  }

  lemma AbortEventMarks(s: State, i: Id)
    requires Inv(s, {}, false)
    ensures Marks(s, Abort(s, i), {})
  {
    hide *;
    AbortIs(s, i);
    MarksAside(s, s);
    CancelHerdMarks(s, i, {}, false);
  }

  lemma ReloadMarks(s: State, cfg: Config, script: seq<seq<Request>>)
    requires Inv(s, {}, false)
    ensures Marks(s, CancelOrphans(Activate(s.(script := script), cfg), Ascending(s.live, s.next)), {})
  {
    hide *;
    var t := s.(script := script);
    var u := Activate(t, cfg);
    Scripted(s, script, false);
    ActivateKeeps(t, cfg, false);
    ActivateDirt(t, cfg);
    CancelOrphansMarks(u, Ascending(s.live, s.next), false);
    Aside(s, u, CancelOrphans(u, Ascending(s.live, s.next)));
  }

  lemma ActivateDirt(s: State, cfg: Config)
    ensures Activate(s, cfg).store == s.store && Activate(s, cfg).live == s.live && Activate(s, cfg).dirty == s.dirty
  {
    ActivateEffect(s, cfg);
    hide Activate;
  }

  /** Whatever happens in an event, a live herder that has a new sheep or one that has finished, or that
      begins to wait, is marked for its planned sheep to be reevaluated; a reevaluation, which takes all
      marks, marks again those for which it makes something happen. No other event takes a mark. */
  lemma NothingGoesUnnoticed(s: State, e: Event)
    requires Inv(s, {}, false) && Enabled(s, e)
    ensures Marks(if e.ReevaluateEvent? then s.(dirty := {}) else s, Apply(s, e), {})
  {
    hide Inv, Plan, ReevaluateAll, StartAll, Stop, Cancel, Abort, CancelOrphans, Activate, Ascending, Marks, Data;
    match e {
      case PlanEvent(req, herd, script) =>
        HerdIsHerder(s, req, herd, script);
        PlanEventMarks(s, req, herd, script);
      case ReevaluateEvent(script) => ReevaluateEventMarks(s, script);
      case StartEvent(script) => StartEventMarks(s, script);
      case StopEvent(i, ok, script) => StopEventMarks(s, i, ok, script);
      case CancelEvent(i, script) =>
        MarksAside(s, s);
        if i in s.live {
          CancelEventMarks(s, i, script);
        }
      case AbortEvent(i) =>
        MarksAside(s, s);
        AbortEventMarks(s, i);
      case EnableEvent(_, _) => SettingMarks(s, e);
      case HostsEvent(_, _) => SettingMarks(s, e);
      case ReloadEvent(cfg, script) => ReloadMarks(s, cfg, script);
    }
  }

  lemma HerdIsHerder(s: State, req: Request, herd: Id, script: seq<seq<Request>>)
    requires Enabled(s, PlanEvent(req, herd, script))
    ensures herd == 0 || IsHerder(s.store, herd)
  {
  }

  lemma SettingMarks(s: State, e: Event)
    requires e.EnableEvent? || e.HostsEvent?
    ensures Marks(s, Apply(s, e), {})
  {
    hide Plan, ReevaluateAll, StartAll, Stop, Cancel, Abort, CancelOrphans, Activate, Ascending, Marks;
    MarksAside(s, Apply(s, e));
  }

  /** The awaited sheep of a live herder are all finished after an event, and were not before: it is
      marked. */
  lemma FinishedWaitIsMarked(s: State, e: Event, h: Id, ids: set<Id>)
    requires Inv(s, {}, false) && Enabled(s, e) && IsHerder(s.store, h) && h in Apply(s, e).live
    requires exists j <- ids :: j in s.store && s.store[j].herd == h && j != h && !Finished(StatusOf(s.store[j]))
    requires forall j <- ids :: j in Apply(s, e).store && Apply(s, e).store[j].herd == h && j != h ==>
                                  Finished(StatusOf(Apply(s, e).store[j]))
    ensures h in Apply(s, e).dirty
  {
    var j :| j in ids && j in s.store && s.store[j].herd == h && j != h && !Finished(StatusOf(s.store[j]));
    hide *;
    var t := Apply(s, e);
    NothingGoesUnnoticed(s, e);
    NowFinished(if e.ReevaluateEvent? then s.(dirty := {}) else s, t, h, j);
  }

  lemma NowFinished(s: State, t: State, h: Id, j: Id)
    requires Marks(s, t, {}) && IsHerder(s.store, h) && h in t.live
    requires j in s.store && s.store[j].herd == h && j != h && !Finished(StatusOf(s.store[j]))
    requires j in t.store && t.store[j].herd == h ==> Finished(StatusOf(t.store[j]))
    ensures h in t.dirty
  {
    assert j in t.store && t.store[j].herd == h && Done(t.store, j) && !Done(s.store, j);
    hide StatusOf;
  }
}
