/** The invariants over the mutually recursive steps of the scheduler: planning triggers actions,
    which plan, queue and cancel instances, which triggers actions. */
module SchedulerActions {
  import opened TaskStatus
  import opened SchedulerModel
  import opened SchedulerInvariants
  import opened SchedulerHerds
  import opened SchedulerBooks
  import opened SchedulerSteps

  // ---------------------------------------------------------------------------------------------
  // What the steps are made of
  // ---------------------------------------------------------------------------------------------

  lemma PlanAllCases(s: State, reqs: seq<Request>, i: Id)
    ensures reqs == [] ==> PlanAll(s, reqs, i) == s
    ensures reqs != [] ==>
              PlanAll(s, reqs, i) == PlanAll(Plan(s, reqs[0], HerdFor(s, reqs[0], i), i), reqs[1..], i)
  {
    hide Plan, HerdFor;
  }

  lemma TriggerCases(s: State, i: Id)
    ensures s.script == [] ==> Trigger(s, i) == s
    ensures s.script != [] ==> Trigger(s, i) == PlanAll(s.(script := s.script[1..]), s.script[0], i)
  {
    hide PlanAll;
  }

  lemma PlanCases(s: State, req: Request, herd: Id, parent: Id)
    ensures req.task !in s.cfg.tasks || req.task !in s.enabled ==> Plan(s, req, herd, parent) == s
    ensures req.task in s.cfg.tasks && req.task in s.enabled ==>
              var t := Trigger(Insert(s, req, herd, parent), s.next);
              Plan(s, req, herd, parent)
              == if herd in s.live && herd in s.store then Soil(t, herd) else Enqueue(t, s.next)
  {
    hide Insert, Trigger, Enqueue, Soil;
  }

  lemma KnownIs(s: State, req: Request)
    ensures Known(s, req) <==> req.task in s.cfg.tasks && req.task in s.enabled
  {
  }

  lemma EnqueueCases(s: State, i: Id)
    ensures var surplus := Surplus(Duplicates(s, i), MaxQueued(s, i), KeepLast(s, i));
            Enqueue(s, i)
            == if Data(s, i).force then Admit(s, i)
               else if Data(s, i).task !in s.enabled then Cancel(s, i)
               else if MaxQueued(s, i) == 0 then Admit(s, i)
               else if i in surplus then CancelAll(s, surplus)
               else Admit(CancelAll(s, surplus), i)
  {
    hide Admit, Cancel, CancelAll, Surplus, Duplicates, MaxQueued, KeepLast, Data;
  }

  lemma CancelAllCases(s: State, ids: seq<Id>)
    ensures CancelAll(s, ids) == if ids == [] then s else CancelAll(Cancel(s, ids[0]), ids[1..])
  {
    hide Cancel;
  }

  lemma CancelCases(s: State, i: Id)
    requires i in s.store
    ensures Cancel(s, i)
         == if !Unready(s.store, i) then s
            else if s.store[i].herd != i then DropSheep(s, i, false)
            else StopHerder(CancelHerd(s, i), i, false)
  {
    hide StopHerder, CancelHerd, DropSheep, StatusOf;
  }

  lemma StopHerderCases(s: State, h: Id, asFailure: bool)
    requires h in s.store && StatusOf(s.store[h]) != Canceled
    ensures var t := Trigger(Watch(s, h), h);
            h in t.store ==>
              StopHerder(s, h, asFailure)
              == if StatusOf(t.store[h]) != Canceled && Get(t.awaited, h, {}) != {}
                    && PolicyOf(t, t.store[h].task) != NoWait
                 then Soil(t, h)
                 else FinishHerder(t, h, asFailure)
  {
    hide Trigger, Watch, FinishHerder, Soil, StatusOf, PolicyOf;
  }

  // ---------------------------------------------------------------------------------------------
  // Facts the steps need
  // ---------------------------------------------------------------------------------------------

  /** An exception that is not a guarded instance is none. */
  lemma NoException(s: State, t: State, i: Id)
    requires Later(s, t, {i}) && !Guarded(s, i)
    ensures Later(s, t, {})
  {
    hide Guarded, Evolves, StatusOf;
  }

  lemma NotPlannedNotGuarded(s: State, i: Id)
    requires i in s.store ==> StatusOf(s.store[i]) != Planned
    ensures !Guarded(s, i)
  {
  }

  lemma PlanHerd(s: State, req: Request, i: Id, limbo: set<Id>, steady: bool)
    requires Herds(s, limbo, steady) && i in s.store
    ensures HerdFor(s, req, i) == 0 || IsHerder(s.store, HerdFor(s, req, i))
  {
    InstFacts(s, i, limbo, steady);
    hide Herds, Shape;
  }

  lemma StillThere(s: State, t: State, except: set<Id>, i: Id)
    requires Later(s, t, except) && i in s.store
    ensures i in t.store && t.store[i].herd == s.store[i].herd
    ensures StatusOf(t.store[i]) == Planned ==> StatusOf(s.store[i]) == Planned
  {
    hide Guarded, StatusOf;
    assert Evolves(i, s.store[i], t.store[i]);
  }

  lemma StillHerder(s: State, t: State, except: set<Id>, h: Id)
    requires Later(s, t, except) && IsHerder(s.store, h)
    ensures IsHerder(t.store, h)
  {
    hide Later;
    StillThere(s, t, except, h);
  }

  lemma ScriptIsAside(s: State, script: seq<seq<Request>>, limbo: set<Id>, steady: bool)
    requires Inv(s, limbo, steady)
    ensures Inv(s.(script := script), limbo, steady) && Later(s, s.(script := script), {})
    ensures Shape(s)
  {
    hide Herds, Books;
    var t := s.(script := script);
    assert SameHerds(s, t) && SameBooks(s, t) && SameSetting(s, t);
    SameInv(s, t, limbo, steady);
    LaterSame(s, t);
    assert Shape(s) by { InvParts(s, limbo, steady); HerdsParts(s, limbo, steady); }
  }

  lemma WatchIsAside(s: State, h: Id, limbo: set<Id>, steady: bool)
    requires Inv(s, limbo, steady)
    ensures Inv(Watch(s, h), limbo, steady) && Later(s, Watch(s, h), {})
    ensures Watch(s, h).script == s.script && Watch(s, h).store == s.store
  {
    hide Herds, Books;
    var t := Watch(s, h);
    assert SameHerds(s, t) && SameBooks(s, t) && SameSetting(s, t);
    SameInv(s, t, limbo, steady);
    LaterSame(s, t);
  }

  lemma SoilIsAside(s: State, h: Id, limbo: set<Id>, steady: bool)
    requires Inv(s, limbo, steady)
    ensures Inv(Soil(s, h), limbo, steady) && Later(s, Soil(s, h), {})
  {
    hide Herds, Books;
    var t := Soil(s, h);
    assert SameHerds(s, t) && SameBooks(s, t) && SameSetting(s, t);
    SameInv(s, t, limbo, steady);
    LaterSame(s, t);
  }

  lemma InvShape(s: State, limbo: set<Id>, steady: bool)
    requires Inv(s, limbo, steady)
    ensures Shape(s) && Herds(s, limbo, steady) && Books(s, steady)
  {
    hide *;
    InvParts(s, limbo, steady);
    HerdsParts(s, limbo, steady);
  }

  /** A new instance out of any live herd is guarded. */
  lemma NewIsGuarded(s: State, req: Request, herd: Id, parent: Id)
    requires Shape(s) && (herd == 0 || IsHerder(s.store, herd))
    ensures var t := Insert(s, req, herd, parent);
            && s.next !in s.store && s.next in t.store
            && (herd !in s.live ==> Guarded(t, s.next))
  {
    var herded := herd in s.live && herd in s.store;
    var inst := NewInst(s.next, req, herd, herded, parent);
    NewInstIsNewborn(s, req, herd, parent);
    EnterEffect(s, inst, herd, herded);
    assert Insert(s, req, herd, parent) == Enter(s, inst, herd, herded);
    hide Insert, Enter, NewInst, Coherent, StatusOf;
  }

  lemma UnknownIsNotGuarded(s: State, i: Id)
    requires i !in s.store
    ensures !Guarded(s, i)
  {
  }

  /** The duplicates of a planned instance: itself, and others that are not planned. */
  lemma DuplicatesAreKnown(s: State, i: Id)
    requires i in s.store
    ensures forall j <- Duplicates(s, i) :: j in s.store && (j != i ==> StatusOf(s.store[j]) == Queued)
  {
    hide StatusOf;
    forall j <- Duplicates(s, i) ensures j in s.store && (j != i ==> StatusOf(s.store[j]) == Queued) {
      if j != i {
        var ids := Ascending(Rivals(s, i), s.next);
        var k :| 0 <= k < |ids| && ids[k] == j;
      }
    }
  }

  lemma SurplusAreDuplicates(duplicates: seq<Id>, max: nat, keepLast: bool)
    ensures forall j <- Surplus(duplicates, max, keepLast) :: j in duplicates
  {
    forall j <- Surplus(duplicates, max, keepLast) ensures j in duplicates {
      if !keepLast && |duplicates| > max {
        assert j in duplicates[max..];
      }
    }
  }

  /** A set of ids that can be canceled, of which only those in "except" may be planned. */
  ghost predicate Cancels(s: State, ids: seq<Id>, except: set<Id>) {
    forall j <- ids :: j in s.store && (j in except || StatusOf(s.store[j]) != Planned)
  }

  lemma CancelsStays(s: State, t: State, ids: seq<Id>, except: set<Id>, more: set<Id>)
    requires ids != [] && Cancels(s, ids, except) && Later(s, t, more)
    ensures Cancels(t, ids[1..], except)
  {
    hide StatusOf, Later;
    forall j <- ids[1..] ensures j in t.store && (j in except || StatusOf(t.store[j]) != Planned) {
      assert j in ids;
      StillThere(s, t, more, j);
    }
  }

  lemma SurplusCancels(s: State, i: Id)
    requires i in s.store
    ensures var surplus := Surplus(Duplicates(s, i), MaxQueued(s, i), KeepLast(s, i));
            Cancels(s, surplus, if i in surplus then {i} else {})
  {
    hide StatusOf, MaxQueued, KeepLast, Surplus, Duplicates;
    DuplicatesAreKnown(s, i);
    SurplusAreDuplicates(Duplicates(s, i), MaxQueued(s, i), KeepLast(s, i));
  }

  lemma FirstCancels(s: State, ids: seq<Id>, except: set<Id>)
    requires ids != [] && Cancels(s, ids, except)
    ensures ids[0] in s.store && (ids[0] in except || StatusOf(s.store[ids[0]]) != Planned)
  {
    assert ids[0] in ids;
  }

  /** A herder that can be stopped: canceled before its start, or its executor has stopped it. */
  ghost predicate Stoppable(s: State, h: Id, limbo: set<Id>) {
    IsHerder(s.store, h) && (Unready(s.store, h) || (h in limbo && StatusOf(s.store[h]) == Waiting))
  }

  lemma StoppableFacts(s: State, h: Id, limbo: set<Id>)
    requires Stoppable(s, h, limbo)
    ensures h in s.store && IsHerder(s.store, h)
    ensures StatusOf(s.store[h]) != Canceled && StatusOf(s.store[h]) != Running
  {
  }

  /** Actions do not start instances. */
  lemma NotRunning(s: State, t: State, h: Id, limbo: set<Id>, steady: bool)
    requires Inv(s, limbo, steady) && Inv(t, limbo, steady) && Later(s, t, {}) && IsHerder(s.store, h)
    requires StatusOf(s.store[h]) != Running
    ensures IsHerder(t.store, h) && StatusOf(t.store[h]) != Running && Closable(t, h)
    ensures Coherent(t.store[h]) && h in t.store
    ensures StatusOf(t.store[h]) == Canceled ==> h !in t.live
  {
    StillHerder(s, t, {}, h);
    assert t.busy == s.busy;
    assert StatusOf(t.store[h]) != Running by {
      hide Herds, Slotted, Loaded, Bounded, StatusOf;
    }
    InstFacts(t, h, limbo, steady);
    hide Later, Books, Indexed, Herding, Judged, Coherent, Shape;
  }

  lemma HerdingWeakens(s: State, limbo: set<Id>, h: Id)
    requires Herding(s, limbo)
    ensures Herding(s, limbo + {h})
  {
    hide StatusOf;
  }

  /** A herder with something to wait for needs no limbo. */
  lemma HerderWaits(s: State, h: Id, limbo: set<Id>, steady: bool)
    requires Inv(s, limbo, steady) && IsHerder(s.store, h) && Get(s.awaited, h, {}) != {}
    ensures Inv(s, limbo - {h}, steady)
  {
    InvShape(s, limbo, steady);
    HerderLeavesLimbo(s, h, limbo);
    HerderKeepsHerding(s, h, limbo);
    hide Clean, Indexed, Herding, Judged, Shape;
  }

  lemma HerderKeepsHerding(s: State, h: Id, limbo: set<Id>)
    requires Herding(s, limbo) && Get(s.awaited, h, {}) != {}
    ensures Herding(s, limbo - {h})
  {
    hide StatusOf;
  }

  // ---------------------------------------------------------------------------------------------
  // The steps
  // ---------------------------------------------------------------------------------------------

  lemma {:induction false} PlanAllKeeps(s: State, reqs: seq<Request>, i: Id, limbo: set<Id>, steady: bool)
    requires Inv(s, limbo, steady) && i in s.store
    ensures Inv(PlanAll(s, reqs, i), limbo, steady) && Later(s, PlanAll(s, reqs, i), {})
    decreases |s.script|, 7, |reqs|
  {
    hide *;
    PlanAllCases(s, reqs, i);
    if reqs == [] {
      LaterItself(s, {});
    } else {
      var herd := HerdFor(s, reqs[0], i);
      var t := Plan(s, reqs[0], herd, i);
      InvShape(s, limbo, steady);
      PlanHerd(s, reqs[0], i, limbo, steady);
      PlanKeeps(s, reqs[0], herd, i, limbo, steady);
      StillThere(s, t, {}, i);
      PlanAllKeeps(t, reqs[1..], i, limbo, steady);
      LaterThen(s, t, PlanAll(t, reqs[1..], i), {});
    }
  }

  lemma {:induction false} TriggerKeeps(s: State, i: Id, limbo: set<Id>, steady: bool)
    requires Inv(s, limbo, steady) && i in s.store
    ensures Inv(Trigger(s, i), limbo, steady) && Later(s, Trigger(s, i), {})
    decreases |s.script|, 0, 0
  {
    hide *;
    TriggerCases(s, i);
    if s.script == [] {
      LaterItself(s, {});
    } else {
      var t := s.(script := s.script[1..]);
      ScriptIsAside(s, s.script[1..], limbo, steady);
      PlanAllKeeps(t, s.script[0], i, limbo, steady);
      LaterThen(s, t, Trigger(s, i), {});
    }
  }

  lemma {:induction false} PlanKeeps(s: State, req: Request, herd: Id, parent: Id, limbo: set<Id>, steady: bool)
    requires Inv(s, limbo, steady) && (herd == 0 || IsHerder(s.store, herd))
    ensures Inv(Plan(s, req, herd, parent), limbo, steady) && Later(s, Plan(s, req, herd, parent), {})
    decreases |s.script|, 6, 0
  {
    hide *;
    PlanCases(s, req, herd, parent);
    if req.task !in s.cfg.tasks || req.task !in s.enabled {
      LaterItself(s, {});
    } else {
      var t := Insert(s, req, herd, parent);
      InvShape(s, limbo, steady);
      NewIsGuarded(s, req, herd, parent);
      InsertInv(s, req, herd, parent, limbo, steady);
      InsertLater(s, req, herd, parent);
      TriggerKeeps(t, s.next, limbo, steady);
      var u := Trigger(t, s.next);
      LaterThen(s, t, u, {});
      if herd in s.live && herd in s.store {
        SoilIsAside(u, herd, limbo, steady);
        LaterThen(s, u, Soil(u, herd), {});
      } else {
        LiveHerderIsKnown(s, herd);
        InvShape(t, limbo, steady);
        GuardedStays(t, u, {}, s.next);
        EnqueueKeeps(u, s.next, limbo, steady);
        AndLater(s, u, Enqueue(u, s.next), {s.next});
        UnknownIsNotGuarded(s, s.next);
        NoException(s, Enqueue(u, s.next), s.next);
      }
    }
  }

  lemma LiveHerderIsKnown(s: State, herd: Id)
    requires Shape(s)
    ensures herd in s.live ==> herd in s.store
  {
  }

  lemma {:induction false} EnqueueKeeps(s: State, i: Id, limbo: set<Id>, steady: bool)
    requires Inv(s, limbo, steady) && Guarded(s, i)
    ensures Inv(Enqueue(s, i), limbo, steady) && Later(s, Enqueue(s, i), {i})
    decreases |s.script|, 5, 0
  {
    hide *;
    EnqueueCases(s, i);
    InvShape(s, limbo, steady);
    PlannedIsUnready(s, i);
    AdmitInv(s, i, limbo, steady);
    var surplus := Surplus(Duplicates(s, i), MaxQueued(s, i), KeepLast(s, i));
    if !Data(s, i).force && Data(s, i).task !in s.enabled {
      CancelKeeps(s, i, limbo, steady);
    } else if !Data(s, i).force && MaxQueued(s, i) != 0 {
      var t := CancelAll(s, surplus);
      SurplusCancels(s, i);
      CancelAllKeeps(s, surplus, if i in surplus then {i} else {}, limbo, steady);
      if i !in surplus {
        GuardedStays(s, t, {}, i);
        InvShape(t, limbo, steady);
        AdmitInv(t, i, limbo, steady);
        AndLater(s, t, Admit(t, i), {i});
      }
    }
  }

  lemma {:induction false} CancelAllKeeps(s: State, ids: seq<Id>, except: set<Id>, limbo: set<Id>, steady: bool)
    requires Inv(s, limbo, steady) && Cancels(s, ids, except)
    ensures Inv(CancelAll(s, ids), limbo, steady) && Later(s, CancelAll(s, ids), except)
    decreases |s.script|, 4, |ids|
  {
    hide *;
    CancelAllCases(s, ids);
    if ids == [] {
      LaterItself(s, except);
    } else {
      var t := Cancel(s, ids[0]);
      InvShape(s, limbo, steady);
      FirstCancels(s, ids, except);
      CancelKeeps(s, ids[0], limbo, steady);
      CancelsStays(s, t, ids, except, {ids[0]});
      if ids[0] in except {
        LaterWeaken(s, t, {ids[0]}, except);
      } else {
        NotPlannedNotGuarded(s, ids[0]);
        NoException(s, t, ids[0]);
        LaterWeaken(s, t, {}, except);
      }
      CancelAllKeeps(t, ids[1..], except, limbo, steady);
      LaterTrans(s, t, CancelAll(t, ids[1..]), except, except);
      assert except + except == except;
    }
  }

  lemma {:induction false} CancelKeeps(s: State, i: Id, limbo: set<Id>, steady: bool)
    requires Inv(s, limbo, steady) && i in s.store
    ensures Inv(Cancel(s, i), limbo, steady) && Later(s, Cancel(s, i), {i})
    decreases |s.script|, 3, 0
  {
    hide *;
    CancelCases(s, i);
    InvShape(s, limbo, steady);
    if !Unready(s.store, i) {
      LaterItself(s, {i});
    } else if s.store[i].herd != i {
      DropSheepInv(s, i, false, limbo, steady);
    } else {
      var t := CancelHerd(s, i);
      HerderOf(s.store, i);
      InstFacts(s, i, limbo, steady);
      CancelHerdInv(s, i, limbo, steady);
      UnreadyIsStoppable(s, t, i, limbo);
      StopHerderKeeps(t, i, false, limbo, steady);
      assert limbo - {i} == limbo;
      AndLater(s, t, StopHerder(t, i, false), {i});
    }
  }

  lemma HerderOf(store: Store, h: Id)
    requires h in store && store[h].herd == h
    ensures IsHerder(store, h)
  {
  }

  lemma UnreadyIsStoppable(s: State, t: State, h: Id, limbo: set<Id>)
    requires IsHerder(s.store, h) && Unready(s.store, h) && h in t.store && t.store[h] == s.store[h]
    ensures Stoppable(t, h, limbo)
  {
  }

  lemma {:induction false} StopHerderKeeps(s: State, h: Id, asFailure: bool, limbo: set<Id>, steady: bool)
    requires Inv(s, limbo, steady) && Stoppable(s, h, limbo)
    ensures Inv(StopHerder(s, h, asFailure), limbo - {h}, steady)
    ensures Later(s, StopHerder(s, h, asFailure), {h})
    decreases |s.script|, 2, 0
  {
    hide *;
    StoppableFacts(s, h, limbo);
    StopHerderCases(s, h, asFailure);
    WatchIsAside(s, h, limbo, steady);
    TriggerKeeps(Watch(s, h), h, limbo, steady);
    var t := Trigger(Watch(s, h), h);
    InvShape(s, limbo, steady);
    InvShape(t, limbo, steady);
    LaterThen(s, Watch(s, h), t, {});
    NotRunning(s, t, h, limbo, steady);
    if StatusOf(t.store[h]) != Canceled && Get(t.awaited, h, {}) != {} && PolicyOf(t, t.store[h].task) != NoWait {
      HerderWaits(t, h, limbo, steady);
      SoilIsAside(t, h, limbo - {h}, steady);
      LaterThen(s, t, Soil(t, h), {});
      LaterWeaken(s, Soil(t, h), {}, {h});
    } else {
      HerdsParts(t, limbo, steady);
      HerdingWeakens(t, limbo, h);
      FinishHerderInv(t, h, asFailure, limbo, steady);
      FinishHerderLater(t, h, asFailure);
      AndLater(s, t, FinishHerder(t, h, asFailure), {h});
    }
  }
}
