/** What the steps that trigger no action do to the queue, instance by instance. */
module SchedulerLines {
  import opened TaskStatus
  import opened SchedulerModel
  import opened SchedulerInvariants
  import opened SchedulerHerds
  import opened SchedulerBooks
  import opened SchedulerSteps
  import opened SchedulerActions
  import opened SchedulerRuns
  import opened SchedulerTheorems
  import opened SchedulerQueue

  /** The same instances are known, nobody is newly queued, and only some may have left the queue. Those
      that had started have. */
  ghost predicate KeepsLine(a: Store, b: Store, gone: set<Id>) {
    && b.Keys == a.Keys
    && (forall j <- a ::
          && b[j].task == a[j].task && b[j].criterion == a[j].criterion && b[j].force == a[j].force
          && b[j].herd == a[j].herd && (a[j].started ==> b[j].started)
          && (StatusOf(b[j]) == Queued ==> StatusOf(a[j]) == Queued)
          && (j !in gone && StatusOf(a[j]) == Queued ==> StatusOf(b[j]) == Queued))
  }

  lemma LineItself(a: Store)
    ensures KeepsLine(a, a, {})
  {
    hide StatusOf;
  }

  lemma LineTrans(a: Store, b: Store, c: Store, gone: set<Id>, more: set<Id>)
    requires KeepsLine(a, b, gone) && KeepsLine(b, c, more)
    ensures KeepsLine(a, c, gone + more)
  {
    hide StatusOf;
  }

  lemma LineThen(a: Store, b: Store, c: Store, gone: set<Id>)
    requires KeepsLine(a, b, gone) && KeepsLine(b, c, {})
    ensures KeepsLine(a, c, gone)
  {
    hide StatusOf;
  }

  lemma LinePut(a: Store, i: Id, inst: Inst)
    requires i in a && SameHerd(inst, a[i]) && StatusOf(inst) != Queued && (a[i].started ==> inst.started)
    ensures KeepsLine(a, a[i := inst], {i})
    ensures StatusOf(a[i]) != Queued ==> KeepsLine(a, a[i := inst], {})
  {
    hide StatusOf;
  }

  lemma ClosedStarted(s: State, i: Id, asFailure: bool)
    requires i in s.store
    ensures s.store[i].started ==> Closed(s, i, asFailure).started
  {
    hide Judge, Herded, PolicyOf;
  }

  lemma CloseLine(s: State, i: Id, asFailure: bool)
    requires i in s.store && Coherent(s.store[i])
    ensures KeepsLine(s.store, Close(s, i, asFailure).store, {i})
    ensures StatusOf(s.store[i]) != Queued ==> KeepsLine(s.store, Close(s, i, asFailure).store, {})
  {
    ClosedEffect(s, i, asFailure);
    CloseEffect(s, i, asFailure);
    ClosedStarted(s, i, asFailure);
    hide Close, Closed, Coherent, KeepsLine;
    LinePut(s.store, i, Closed(s, i, asFailure));
  }

  lemma FinishHerderLine(s: State, h: Id, asFailure: bool)
    requires IsHerder(s.store, h) && Coherent(s.store[h])
    ensures KeepsLine(s.store, FinishHerder(s, h, asFailure).store, {h})
    ensures StatusOf(s.store[h]) != Queued ==> KeepsLine(s.store, FinishHerder(s, h, asFailure).store, {})
  {
    ClosedEffect(s, h, asFailure);
    var gone := FinishHerderEffect(s, h, asFailure);
    ClosedStarted(s, h, asFailure);
    hide FinishHerder, Closed, Coherent, KeepsLine;
    LinePut(s.store, h, Closed(s, h, asFailure));
  }

  lemma ReleaseLine(s: State, i: Id, limbo: set<Id>, steady: bool)
    requires Herds(s, limbo, steady) && InLimbo(s, i, limbo)
    ensures KeepsLine(s.store, Release(Forget(s, i), i).store, {})
  {
    hide *;
    SheepIsNotHerder(s, i, limbo);
    var h := s.store[i].herd;
    LineItself(s.store);
    if h in s.live {
      var t := Unawait(s, i);
      StillAwaited(s, i, limbo, steady);
      ReleaseCases(s, i);
      InstFacts(s, h, limbo, steady);
      UnawaitSame(s, i, h);
      SameHerder(s, t, h);
      FinishHerderLine(t, h, false);
      SoilStore(t, h);
    } else {
      NoIndexes(s, h, limbo, steady);
      OrphanReleased(s, i);
    }
  }

  lemma DropSheepLine(s: State, i: Id, asFailure: bool, limbo: set<Id>, steady: bool)
    requires Inv(s, limbo, steady) && i in s.store && s.store[i].herd != i && Unready(s.store, i)
    requires Unready(s.store, s.store[i].herd) ==> !asFailure
    ensures KeepsLine(s.store, DropSheep(s, i, asFailure).store, {i})
    ensures StatusOf(s.store[i]) != Queued ==> KeepsLine(s.store, DropSheep(s, i, asFailure).store, {})
  {
    var t := Close(s, i, asFailure);
    assert DropSheep(s, i, asFailure) == Release(Forget(t, i), i);
    hide *;
    InvShape(s, limbo, steady);
    InstFacts(s, i, limbo, steady);
    CloseLine(s, i, asFailure);
    CloseSheepInv(s, i, asFailure, limbo, steady);
    InvShape(t, limbo + {i}, steady);
    ReleaseLine(t, i, limbo + {i}, steady);
    LineThen(s.store, t.store, DropSheep(s, i, asFailure).store, {i});
    if StatusOf(s.store[i]) != Queued {
      LineThen(s.store, t.store, DropSheep(s, i, asFailure).store, {});
    }
  }

  /** Sheep of one herd that may be queued only if they are in some set. */
  ghost predicate OutOfLine(store: Store, ids: seq<Id>, gone: set<Id>) {
    forall j <- ids :: j in store && (StatusOf(store[j]) == Queued ==> j in gone)
  }

  lemma OutOfLineStays(a: Store, b: Store, ids: seq<Id>, gone: set<Id>)
    requires ids != [] && OutOfLine(a, ids, gone) && KeepsLine(a, b, gone)
    ensures OutOfLine(b, ids[1..], gone)
    ensures ids[0] in a && (StatusOf(a[ids[0]]) == Queued ==> ids[0] in gone)
  {
    hide StatusOf;
    assert ids[0] in ids && forall j <- ids[1..] :: j in ids;
  }

  lemma LineWiden(a: Store, b: Store, gone: set<Id>, more: set<Id>)
    requires KeepsLine(a, b, gone) && gone <= more
    ensures KeepsLine(a, b, more)
  {
    hide StatusOf;
  }

  lemma {:induction false} DropSheepOfLine(s: State, ids: seq<Id>, h: Id, gone: set<Id>, limbo: set<Id>, steady: bool)
    requires Inv(s, limbo, steady) && AreSheep(s, ids, h) && OutOfLine(s.store, ids, gone)
    ensures KeepsLine(s.store, DropSheepOf(s, ids).store, gone)
    decreases |ids|
  {
    hide *;
    LineItself(s.store);
    LineWiden(s.store, s.store, {}, gone);
    if ids == [] {
      DropNone(s);
    } else {
      var t := if Cancelable(s, ids[0]) then DropSheep(s, ids[0], false) else s;
      DropOneCases(s, ids);
      HeadSheep(s, ids, h);
      OutOfLineStays(s.store, s.store, ids, gone);
      if Cancelable(s, ids[0]) {
        DropSheepInv(s, ids[0], false, limbo, steady);
        DropSheepLine(s, ids[0], false, limbo, steady);
        SheepStay(s, t, ids[1..], h, {ids[0]});
        if StatusOf(s.store[ids[0]]) == Queued {
          LineWiden(s.store, t.store, {ids[0]}, gone);
        } else {
          LineWiden(s.store, t.store, {}, gone);
        }
        OutOfLineStays(s.store, t.store, ids, gone);
      }
      DropSheepOfLine(t, ids[1..], h, gone, limbo, steady);
      LineTrans(s.store, t.store, DropSheepOf(s, ids).store, gone, gone);
      assert gone + gone == gone;
    }
  }

  lemma DropNone(s: State)
    ensures DropSheepOf(s, []) == s
  {
  }

  /** Canceling the sheep of a herder that has not started takes nobody out of the queue. */
  lemma CancelHerdLine(s: State, h: Id, limbo: set<Id>, steady: bool)
    requires Inv(s, limbo, steady) && IsHerder(s.store, h) && Unready(s.store, h)
    ensures KeepsLine(s.store, CancelHerd(s, h).store, {})
  {
    hide *;
    CancelHerdIs(s, h);
    InvShape(s, limbo, steady);
    HerdsParts(s, limbo, steady);
    SheepAreSheep(s, h, limbo, steady);
    UnreadySheep(s, Ascending(Sheep(s, h), s.next), h, limbo);
    DropSheepOfLine(s, Ascending(Sheep(s, h), s.next), h, {}, limbo, steady);
  }

  lemma UnreadySheep(s: State, ids: seq<Id>, h: Id, limbo: set<Id>)
    requires Herding(s, limbo) && AreSheep(s, ids, h) && IsHerder(s.store, h) && Unready(s.store, h)
    ensures OutOfLine(s.store, ids, {})
  {
    forall j <- ids ensures j in s.store && StatusOf(s.store[j]) != Queued {
      assert j in s.store && s.store[j].herd == h;
    }
    hide StatusOf;
  }

  lemma AllOutOfLine(s: State, ids: seq<Id>, h: Id)
    requires AreSheep(s, ids, h)
    ensures OutOfLine(s.store, ids, s.store.Keys)
  {
    hide StatusOf;
  }

  // ---------------------------------------------------------------------------------------------
  // Kin, and forced instances
  // ---------------------------------------------------------------------------------------------

  lemma LineKin(a: Store, b: Store, gone: set<Id>, t: TaskId, criterion: string)
    requires KeepsLine(a, b, gone)
    ensures Kin(b, t, criterion) <= Kin(a, t, criterion)
    ensures Kin(a, t, criterion) - gone <= Kin(b, t, criterion)
    ensures gone == {} ==> Kin(b, t, criterion) == Kin(a, t, criterion)
  {
    hide StatusOf;
  }

  lemma LineForce(s: State, t: State, gone: set<Id>)
    requires KeepsLine(s.store, t.store, gone)
    ensures NoForce(s) <==> NoForce(t)
  {
    hide StatusOf;
    if NoForce(t) {
      forall j <- s.store ensures !s.store[j].force {
        assert j in t.store && t.store[j].force == s.store[j].force;
      }
    }
  }

  lemma InsertForce(s: State, req: Request, herd: Id, parent: Id)
    requires Shape(s) && (herd == 0 || IsHerder(s.store, herd))
    ensures var t := Insert(s, req, herd, parent);
            && s.next in t.store && t.store[s.next].force == req.force && t.store[s.next].criterion == req.criterion
            && (NoForce(s) && !req.force <==> NoForce(t))
  {
    var herded := herd in s.live && herd in s.store;
    var inst := NewInst(s.next, req, herd, herded, parent);
    var t := Insert(s, req, herd, parent);
    NewInstIsNewborn(s, req, herd, parent);
    EnterEffect(s, inst, herd, herded);
    assert t == Enter(s, inst, herd, herded);
    assert inst.force == req.force && inst.criterion == req.criterion by { hide Conditions; }
    hide Insert, Enter, NewInst, Coherent, StatusOf, Shape, Newborn;
    if NoForce(t) {
      forall j <- s.store ensures !s.store[j].force {
        assert j in t.store && t.store[j].force == s.store[j].force;
      }
    }
  }

  lemma AdmitForce(s: State, i: Id)
    requires i in s.store
    ensures NoForce(Admit(s, i)) <==> NoForce(s)
  {
    AdmitStore(s, i);
    hide Admit;
    var t := Admit(s, i);
    assert forall j :: j in t.store <==> j in s.store;
    assert forall j <- s.store :: t.store[j].force == s.store[j].force;
  }
}
