/** Deduplication: the bound on queued instances of one task with one deduplicate criterion, which
    instances go, and when a cancellation takes effect. */
module SchedulerQueue {
  import opened TaskStatus
  import opened SchedulerModel
  import opened SchedulerInvariants
  import opened SchedulerHerds
  import opened SchedulerBooks
  import opened SchedulerSteps
  import opened SchedulerActions
  import opened SchedulerRuns
  import opened SchedulerTheorems

  /** The queued instances of a task with a deduplicate criterion. */
  ghost function Kin(store: Store, t: TaskId, criterion: string): set<Id> {
    set i | i in store && StatusOf(store[i]) == Queued && store[i].task == t && store[i].criterion == criterion
  }

  /** The task limits its queued instances, and keeps the last ones. */
  predicate KeepsLast(cfg: Config, t: TaskId) {
    t in cfg.tasks && 0 < cfg.tasks[t].maxQueued && cfg.tasks[t].keepLast
  }

  /** The bound, in runs without forced instances. For a task that keeps the last instances, it is
      asked for only where no canceled instance has planned new ones. */
  ghost predicate Deduped(s: State, t: TaskId, last: bool) {
    && (KeepsLast(s.cfg, t) ==> last)
    && (NoForce(s) && (last ==> !s.strayed) && t in s.cfg.tasks && 0 < s.cfg.tasks[t].maxQueued ==>
          forall criterion :: |Kin(s.store, t, criterion)| <= s.cfg.tasks[t].maxQueued)
  }

  /** No instance is newly queued. */
  ghost predicate Calmer(a: Store, b: Store) {
    && (forall i <- b :: StatusOf(b[i]) == Queued ==>
          i in a && StatusOf(a[i]) == Queued && a[i].task == b[i].task && a[i].criterion == b[i].criterion)
    && (forall i <- a :: i in b && b[i].force == a[i].force)
  }

  lemma CalmerTrans(a: Store, b: Store, c: Store)
    requires Calmer(a, b) && Calmer(b, c)
    ensures Calmer(a, c)
  {
    hide StatusOf;
  }

  lemma CalmerPut(a: Store, i: Id, inst: Inst)
    requires i in a && inst.force == a[i].force && StatusOf(inst) != Queued
    ensures Calmer(a, a[i := inst])
  {
    hide StatusOf;
  }

  lemma CalmerItself(a: Store)
    ensures Calmer(a, a)
  {
  }

  lemma SmallerSet(a: set<Id>, b: set<Id>)
    requires a <= b
    ensures |a| <= |b|
  {
    assert b == a + (b - a);
  }

  lemma CalmerKin(a: Store, b: Store, t: TaskId, criterion: string)
    requires Calmer(a, b)
    ensures Kin(b, t, criterion) <= Kin(a, t, criterion) && |Kin(b, t, criterion)| <= |Kin(a, t, criterion)|
  {
    hide StatusOf;
    SmallerSet(Kin(b, t, criterion), Kin(a, t, criterion));
  }

  lemma CalmerForce(s: State, t: State)
    requires Calmer(s.store, t.store) && NoForce(t)
    ensures NoForce(s)
  {
    hide StatusOf;
  }

  lemma CalmerDeduped(s: State, t: State, task: TaskId, last: bool)
    requires Deduped(s, task, last) && Calmer(s.store, t.store) && t.cfg == s.cfg && (s.strayed ==> t.strayed)
    ensures Deduped(t, task, last)
  {
    hide Calmer, Kin, NoForce;
    if NoForce(t) {
      CalmerForce(s, t);
    }
    forall criterion ensures |Kin(t.store, task, criterion)| <= |Kin(s.store, task, criterion)| {
      CalmerKin(s.store, t.store, task, criterion);
    }
  }

  // ---------------------------------------------------------------------------------------------
  // Steps that call no action queue nothing
  // ---------------------------------------------------------------------------------------------

  lemma InsertCalmer(s: State, req: Request, herd: Id, parent: Id)
    requires Shape(s) && (herd == 0 || IsHerder(s.store, herd))
    ensures Calmer(s.store, Insert(s, req, herd, parent).store)
  {
    var herded := herd in s.live && herd in s.store;
    var inst := NewInst(s.next, req, herd, herded, parent);
    InsertEffect(s, req, herd, parent);
    hide *;
    AddedCalmer(s.store, Insert(s, req, herd, parent).store, s.next);
  }

  lemma AddedCalmer(a: Store, b: Store, i: Id)
    requires b.Keys == a.Keys + {i} && i in b && StatusOf(b[i]) == Planned && i !in a
    requires forall j <- a :: j in b && StatusOf(b[j]) == StatusOf(a[j])
                              && b[j].task == a[j].task && b[j].criterion == a[j].criterion && b[j].force == a[j].force
    ensures Calmer(a, b)
  {
    hide StatusOf;
  }

  lemma CloseCalmer(s: State, i: Id, asFailure: bool)
    requires i in s.store && Coherent(s.store[i])
    ensures Calmer(s.store, Close(s, i, asFailure).store)
  {
    ClosedEffect(s, i, asFailure);
    CloseEffect(s, i, asFailure);
    hide Close, Closed, Coherent, Calmer;
    CalmerPut(s.store, i, Closed(s, i, asFailure));
  }

  lemma FinishHerderCalmer(s: State, h: Id, asFailure: bool)
    requires IsHerder(s.store, h) && Coherent(s.store[h])
    ensures Calmer(s.store, FinishHerder(s, h, asFailure).store)
    ensures h in FinishHerder(s, h, asFailure).store
    ensures Finished(StatusOf(FinishHerder(s, h, asFailure).store[h]))
  {
    ClosedEffect(s, h, asFailure);
    var gone := FinishHerderEffect(s, h, asFailure);
    hide FinishHerder, Closed, Coherent, Calmer, StatusOf;
    CalmerPut(s.store, h, Closed(s, h, asFailure));
  }

  lemma ReleaseCalmer(s: State, i: Id, limbo: set<Id>, steady: bool)
    requires Herds(s, limbo, steady) && InLimbo(s, i, limbo)
    ensures Calmer(s.store, Release(Forget(s, i), i).store)
  {
    hide *;
    SheepIsNotHerder(s, i, limbo);
    var h := s.store[i].herd;
    CalmerItself(s.store);
    if h in s.live {
      var t := Unawait(s, i);
      StillAwaited(s, i, limbo, steady);
      ReleaseCases(s, i);
      InstFacts(s, h, limbo, steady);
      UnawaitSame(s, i, h);
      SameHerder(s, t, h);
      FinishHerderCalmer(t, h, false);
      SoilStore(t, h);
    } else {
      NoIndexes(s, h, limbo, steady);
      OrphanReleased(s, i);
    }
  }

  lemma OrphanReleased(s: State, i: Id)
    requires i in s.store && s.store[i].herd != i && s.store[i].herd !in s.live && s.store[i].herd !in s.awaited
    ensures Release(Forget(s, i), i).store == s.store
  {
    hide FinishHerder, StatusOf, Sheep;
    assert Forget(s, i) == s.(live := s.live - {i});
    hide Forget;
  }

  lemma SoilStore(s: State, h: Id)
    ensures Soil(s, h).store == s.store
  {
  }

  lemma DropSheepCalmer(s: State, i: Id, asFailure: bool, limbo: set<Id>, steady: bool)
    requires Inv(s, limbo, steady) && i in s.store && s.store[i].herd != i && Unready(s.store, i)
    requires Unready(s.store, s.store[i].herd) ==> !asFailure
    ensures Calmer(s.store, DropSheep(s, i, asFailure).store)
    ensures i in DropSheep(s, i, asFailure).store && !Unready(DropSheep(s, i, asFailure).store, i)
  {
    var t := Close(s, i, asFailure);
    assert DropSheep(s, i, asFailure) == Release(Forget(t, i), i);
    hide *;
    InvShape(s, limbo, steady);
    InstFacts(s, i, limbo, steady);
    CloseCalmer(s, i, asFailure);
    CloseSheepInv(s, i, asFailure, limbo, steady);
    InvShape(t, limbo + {i}, steady);
    ReleaseCalmer(t, i, limbo + {i}, steady);
    ReleaseInv(t, i, limbo + {i}, steady);
    CalmerTrans(s.store, t.store, DropSheep(s, i, asFailure).store);
    LimboIsReady(t, i, limbo + {i});
    ReadyStays(t, DropSheep(s, i, asFailure), {}, i);
  }

  lemma LimboIsReady(s: State, i: Id, limbo: set<Id>)
    requires InLimbo(s, i, limbo)
    ensures i in s.store && !Unready(s.store, i)
  {
  }

  /** An instance that is no longer planned or queued never is again. */
  lemma ReadyStays(s: State, t: State, except: set<Id>, i: Id)
    requires Later(s, t, except) && i in s.store && !Unready(s.store, i)
    ensures i in t.store && !Unready(t.store, i)
  {
    assert Evolves(i, s.store[i], t.store[i]);
    hide Guarded, StatusOf;
  }

  lemma DropOneCases(s: State, ids: seq<Id>)
    requires ids != []
    ensures DropSheepOf(s, ids)
         == DropSheepOf(if Cancelable(s, ids[0]) then DropSheep(s, ids[0], false) else s, ids[1..])
    ensures ids[0] in s.store ==> (Cancelable(s, ids[0]) <==> Unready(s.store, ids[0]))
  {
    hide DropSheep, StatusOf;
  }

  lemma HeadSheep(s: State, ids: seq<Id>, h: Id)
    requires AreSheep(s, ids, h) && ids != []
    ensures ids[0] in s.store && s.store[ids[0]].herd == h && h != ids[0] && AreSheep(s, ids[1..], h)
  {
    assert ids[0] in ids;
    assert forall j <- ids[1..] :: j in ids;
  }

  lemma {:induction false} DropSheepOfCalmer(s: State, ids: seq<Id>, h: Id, limbo: set<Id>, steady: bool)
    requires Inv(s, limbo, steady) && AreSheep(s, ids, h)
    ensures Calmer(s.store, DropSheepOf(s, ids).store)
    ensures forall j <- ids :: j in DropSheepOf(s, ids).store && !Unready(DropSheepOf(s, ids).store, j)
    decreases |ids|
  {
    if ids == [] {
      CalmerItself(s.store);
    } else {
      hide *;
      var t := if Cancelable(s, ids[0]) then DropSheep(s, ids[0], false) else s;
      DropOneCases(s, ids);
      HeadSheep(s, ids, h);
      if Cancelable(s, ids[0]) {
        DropSheepInv(s, ids[0], false, limbo, steady);
        DropSheepCalmer(s, ids[0], false, limbo, steady);
        SheepStay(s, t, ids[1..], h, {ids[0]});
      } else {
        CalmerItself(s.store);
      }
      DropSheepOfCalmer(t, ids[1..], h, limbo, steady);
      CalmerTrans(s.store, t.store, DropSheepOf(s, ids).store);
      DropSheepOfReady(t, ids[1..], ids[0], h, limbo, steady);
      forall j <- ids ensures j in DropSheepOf(s, ids).store && !Unready(DropSheepOf(s, ids).store, j) {
        if j != ids[0] {
          assert j in ids[1..];
        }
      }
    }
  }

  lemma {:induction false} DropSheepOfReady(s: State, ids: seq<Id>, i: Id, h: Id, limbo: set<Id>, steady: bool)
    requires Inv(s, limbo, steady) && AreSheep(s, ids, h) && i in s.store && !Unready(s.store, i)
    ensures i in DropSheepOf(s, ids).store && !Unready(DropSheepOf(s, ids).store, i)
    decreases |ids|
  {
    if ids != [] {
      hide *;
      var t := if Cancelable(s, ids[0]) then DropSheep(s, ids[0], false) else s;
      DropOneCases(s, ids);
      HeadSheep(s, ids, h);
      if Cancelable(s, ids[0]) {
        DropSheepInv(s, ids[0], false, limbo, steady);
        SheepStay(s, t, ids[1..], h, {ids[0]});
        ReadyStays(s, t, {ids[0]}, i);
      }
      DropSheepOfReady(t, ids[1..], i, h, limbo, steady);
    }
  }

  lemma AllSheepListed(s: State, h: Id)
    requires Shape(s)
    ensures forall j <- Sheep(s, h) :: j in Ascending(Sheep(s, h), s.next)
  {
    hide Coherent;
  }

  /** The sheep being stopped have run. */
  ghost predicate Settled(s: State, limbo: set<Id>) {
    forall j <- limbo :: j in s.store &&
      (s.store[j].herd != j ==> StatusOf(s.store[j]) == Success || StatusOf(s.store[j]) == Failure)
  }

  lemma SettledStays(s: State, t: State, limbo: set<Id>, except: set<Id>)
    requires Settled(s, limbo) && Later(s, t, except)
    ensures Settled(t, limbo)
  {
    hide Guarded, StatusOf;
    forall j <- limbo ensures j in t.store &&
      (t.store[j].herd != j ==> StatusOf(t.store[j]) == Success || StatusOf(t.store[j]) == Failure)
    {
      assert j in s.store && Evolves(j, s.store[j], t.store[j]);
    }
  }

  lemma CancelHerdLater(s: State, h: Id, limbo: set<Id>, steady: bool)
    requires Inv(s, limbo, steady) && IsHerder(s.store, h) && Unready(s.store, h)
    ensures Later(s, CancelHerd(s, h), {})
  {
    hide *;
    CancelHerdInv(s, h, limbo, steady);
  }

  /** Canceling the sheep of a herder that has not started leaves it nothing to wait for. */
  lemma CancelHerdEmpties(s: State, h: Id, limbo: set<Id>, steady: bool)
    requires Inv(s, limbo, steady) && IsHerder(s.store, h) && Unready(s.store, h) && Settled(s, limbo)
    ensures Calmer(s.store, CancelHerd(s, h).store)
    ensures Get(CancelHerd(s, h).awaited, h, {}) == {}
  {
    hide *;
    var t := CancelHerd(s, h);
    CancelHerdIs(s, h);
    InvShape(s, limbo, steady);
    SheepAreSheep(s, h, limbo, steady);
    DropSheepOfCalmer(s, Ascending(Sheep(s, h), s.next), h, limbo, steady);
    AllSheepListed(s, h);
    CancelHerdInv(s, h, limbo, steady);
    InvShape(t, limbo, steady);
    HerderStays(s, t, h);
    HerderIn(s.store, h);
    InstFacts(s, h, limbo, steady);
    InstFacts(t, h, limbo, steady);
    HerdsParts(s, limbo, steady);
    HerdsParts(t, limbo, steady);
    CancelHerdLater(s, h, limbo, steady);
    SettledStays(s, t, limbo, {});
    SameMembers(s, t, h, limbo);
    NothingAwaited(t, h, limbo);
  }

  lemma HerderIn(store: Store, h: Id)
    requires IsHerder(store, h)
    ensures h in store && store[h].herd == h
  {
  }

  lemma HerderStays(s: State, t: State, h: Id)
    requires IsHerder(s.store, h) && h in t.store && t.store[h] == s.store[h]
    ensures IsHerder(t.store, h) && Unready(t.store, h) == Unready(s.store, h)
  {
  }

  /** The members of the herd afterwards are those that were there and are ready now. */
  lemma SameMembers(s: State, t: State, h: Id, limbo: set<Id>)
    requires Indexed(s, limbo) && Shape(s) && Indexed(t, limbo) && h in s.live && h in t.live
    requires IsHerder(s.store, h) && IsHerder(t.store, h) && t.store[h] == s.store[h]
    requires forall j <- Sheep(s, h) :: j in t.store && !Unready(t.store, j)
    ensures forall j <- Members(t.store, h) :: j in t.store && !Unready(t.store, j)
  {
    hide StatusOf, Pending, Coherent, Unready;
    assert HerdIndexed(s, limbo, h) && HerdIndexed(t, limbo, h);
    assert Members(t.store, h) == Members(s.store, h);
    assert Sheep(s, h) == Members(s.store, h);
  }

  lemma NothingAwaited(s: State, h: Id, limbo: set<Id>)
    requires Indexed(s, limbo) && Herding(s, limbo) && Settled(s, limbo)
    requires h in s.live && IsHerder(s.store, h) && Unready(s.store, h)
    requires forall j <- Members(s.store, h) :: j in s.store && !Unready(s.store, j)
    ensures Get(s.awaited, h, {}) == {}
  {
    hide *;
    AwaitedArePending(s, h, limbo);
    forall j <- Pending(s.store, h, limbo) ensures false {
      PendingAreMembers(s.store, h, limbo);
      MemberIsNotPending(s, h, j, limbo);
    }
  }

  lemma AwaitedArePending(s: State, h: Id, limbo: set<Id>)
    requires Indexed(s, limbo) && h in s.live && IsHerder(s.store, h)
    ensures Get(s.awaited, h, {}) == Pending(s.store, h, limbo)
  {
    assert HerdIndexed(s, limbo, h);
    hide Indexed, Members, Pending;
  }

  lemma MemberIsNotPending(s: State, h: Id, j: Id, limbo: set<Id>)
    requires Herding(s, limbo) && IsHerder(s.store, h) && Unready(s.store, h)
    requires j in Members(s.store, h) && j in s.store && !Unready(s.store, j) && Settled(s, limbo)
    ensures j !in Pending(s.store, h, limbo)
  {
    assert s.store[j].herd == h && StatusOf(s.store[j]) == Canceled;
    hide StatusOf, Herding;
  }

  // ---------------------------------------------------------------------------------------------
  // Cancellations
  // ---------------------------------------------------------------------------------------------

  /** When the finish actions of a herder that never started plan nothing, it finishes at once. */
  lemma StopHerderQuietly(s: State, h: Id, asFailure: bool) returns (script: seq<seq<Request>>)
    requires IsHerder(s.store, h) && Unready(s.store, h) && Coherent(s.store[h])
    requires Get(s.awaited, h, {}) == {} && !StopHerder(s, h, asFailure).strayed
    ensures StopHerder(s, h, asFailure) == FinishHerder(s.(script := script), h, asFailure)
  {
    hide *;
    HerderIn(s.store, h);
    UnreadyIsStoppable(s, s, h, {});
    StoppableFacts(s, h, {});
    NeverStarted(s.store, h);
    StopHerderCases(s, h, asFailure);
    script := Trigger(s, h).script;
    StrayedGoesOn(s, h, asFailure);
    NothingWatched(s, h);
    TriggerNothing(s, h);
  }

  lemma TriggerNothing(s: State, h: Id)
    requires s.script == [] || forall r <- s.script[0] :: !Known(s, r)
    ensures Trigger(s, h) == s.(script := Trigger(s, h).script)
  {
    TriggerCases(s, h);
    if s.script != [] {
      var t := s.(script := s.script[1..]);
      assert forall r <- s.script[0] :: !Known(t, r);
      hide *;
      PlanNothing(t, s.script[0], h);
    }
  }

  lemma {:induction false} PlanNothing(s: State, reqs: seq<Request>, i: Id)
    requires forall r <- reqs :: !Known(s, r)
    ensures PlanAll(s, reqs, i) == s
    decreases |reqs|
  {
    PlanAllCases(s, reqs, i);
    if reqs != [] {
      assert !Known(s, reqs[0]);
      assert forall r <- reqs[1..] :: r in reqs;
      PlanCases(s, reqs[0], HerdFor(s, reqs[0], i), i);
      hide PlanAll, Plan, HerdFor, Known;
      PlanNothing(s, reqs[1..], i);
    }
  }

  lemma NeverStarted(store: Store, i: Id)
    requires i in store && Unready(store, i) && Coherent(store[i])
    ensures !store[i].started
  {
  }

  lemma StrayedGoesOn(s: State, h: Id, asFailure: bool)
    requires h in s.store && StatusOf(s.store[h]) != Canceled
    ensures Watch(s, h).strayed ==> StopHerder(s, h, asFailure).strayed
  {
    hide FinishHerder, Trigger, Watch, StatusOf, PolicyOf;
  }

  lemma NothingWatched(s: State, h: Id)
    requires h in s.store && !s.store[h].started && !Watch(s, h).strayed
    ensures Watch(s, h) == s && (s.script == [] || forall r <- s.script[0] :: !Known(s, r))
  {
  }

  /** A cancellation that plans nothing queues nothing, and the instance is no longer queued. */
  lemma CancelQuietly(s: State, i: Id, limbo: set<Id>, steady: bool)
    requires Inv(s, limbo, steady) && Settled(s, limbo) && i in s.store && !Cancel(s, i).strayed
    ensures Calmer(s.store, Cancel(s, i).store)
    ensures i in Cancel(s, i).store && !Unready(Cancel(s, i).store, i)
  {
    hide *;
    CancelCases(s, i);
    InvShape(s, limbo, steady);
    InstFacts(s, i, limbo, steady);
    if !Unready(s.store, i) {
      CalmerItself(s.store);
    } else if s.store[i].herd != i {
      DropSheepCalmer(s, i, false, limbo, steady);
    } else {
      var t := CancelHerd(s, i);
      HerderOf(s.store, i);
      CancelHerdEmpties(s, i, limbo, steady);
      CancelHerdInv(s, i, limbo, steady);
      HerderStays(s, t, i);
      var script := StopHerderQuietly(t, i, false);
      var u := t.(script := script);
      FinishHerderCalmer(u, i, false);
      CalmerTrans(s.store, t.store, FinishHerder(u, i, false).store);
      FinishedIsReady(FinishHerder(u, i, false).store, i);
    }
  }

  lemma FinishedIsReady(store: Store, i: Id)
    requires i in store && Finished(StatusOf(store[i]))
    ensures !Unready(store, i)
  {
  }

  lemma NotQueued(a: Store, b: Store, i: Id)
    requires i in a && !Unready(a, i) && Calmer(a, b)
    ensures i in b && StatusOf(b[i]) != Queued
  {
  }

  lemma StrayedStays(s: State, ids: seq<Id>)
    ensures s.strayed ==> CancelAll(s, ids).strayed
  {
    hide *;
  }

  lemma {:induction false} CancelAllQuietly(s: State, ids: seq<Id>, limbo: set<Id>, steady: bool)
    requires Inv(s, limbo, steady) && Settled(s, limbo) && !CancelAll(s, ids).strayed
    requires forall j <- ids :: j in s.store
    ensures Calmer(s.store, CancelAll(s, ids).store)
    ensures forall j <- ids :: j in CancelAll(s, ids).store && StatusOf(CancelAll(s, ids).store[j]) != Queued
    decreases |ids|
  {
    hide *;
    CancelAllCases(s, ids);
    if ids == [] {
      CalmerItself(s.store);
    } else {
      var t := Cancel(s, ids[0]);
      StrayedStays(t, ids[1..]);
      assert ids[0] in ids;
      CancelQuietly(s, ids[0], limbo, steady);
      CancelKeeps(s, ids[0], limbo, steady);
      SettledStays(s, t, limbo, {ids[0]});
      forall j <- ids[1..] ensures j in t.store {
        StillThere(s, t, {ids[0]}, j);
      }
      CancelAllQuietly(t, ids[1..], limbo, steady);
      CalmerTrans(s.store, t.store, CancelAll(s, ids).store);
      NotQueued(t.store, CancelAll(s, ids).store, ids[0]);
      forall j <- ids ensures j in CancelAll(s, ids).store && StatusOf(CancelAll(s, ids).store[j]) != Queued {
        if j != ids[0] {
          assert j in ids[1..];
        }
      }
    }
  }

  // ---------------------------------------------------------------------------------------------
  // Which duplicates go
  // ---------------------------------------------------------------------------------------------

  function Elems(s: seq<Id>): set<Id> {
    set x | x in s
  }

  lemma {:induction false} FewElems(s: seq<Id>)
    ensures |Elems(s)| <= |s|
  {
    if s == [] {
      assert Elems(s) == {};
    } else {
      FewElems(s[1..]);
      assert Elems(s) == Elems(s[1..]) + {s[0]};
    }
  }

  /** Enough duplicates go for the arriving instance to be queued within the limit, or it goes and
      the others are within it. */
  lemma SurplusLeaves(rivals: set<Id>, order: seq<Id>, i: Id, max: nat, keepLast: bool)
    requires 0 < max && i !in rivals && i !in order && rivals <= Elems(order)
    ensures var surplus := Surplus(order + [i], max, keepLast);
            |rivals - Elems(surplus)| <= if i in surplus then max else max - 1
  {
    var all := order + [i];
    var surplus := Surplus(all, max, keepLast);
    var n := |all| - max;
    if n <= 0 {
      Left(rivals, order, [], order, surplus);
    } else if keepLast {
      assert surplus == all[..n] == order[..n];
      hide *;
      Left(rivals, order, order[..n], order[n..], surplus);
    } else {
      assert surplus == Reversed(all[max..]);
      hide *;
      assert all[max..] == order[max..] + [i];
      Left(rivals, order, order[max..], order[..max], surplus);
    }
  }

  /** When an order is made of what goes and what stays, no more is left than what stays. */
  lemma Left(rivals: set<Id>, order: seq<Id>, goes: seq<Id>, stays: seq<Id>, surplus: seq<Id>)
    requires rivals <= Elems(order) && (order == goes + stays || order == stays + goes)
    requires forall x <- goes :: x in surplus
    ensures |rivals - Elems(surplus)| <= |stays|
  {
    FewElems(stays);
    SmallerSet(rivals - Elems(surplus), Elems(stays));
  }

  /** The arriving instance is kept, and the lowest ids are dropped, lowest first. */
  ghost predicate LastAreKept(rivals: set<Id>, i: Id, surplus: seq<Id>) {
    && i !in surplus
    && (forall j, k :: 0 <= j < k < |surplus| ==> surplus[j] < surplus[k])
    && (forall a <- rivals, b <- rivals :: a in surplus && b !in surplus ==> a < b)
  }

  /** The arriving instance is dropped, then the highest ids, highest first. */
  ghost predicate FirstAreKept(rivals: set<Id>, i: Id, surplus: seq<Id>) {
    && 0 < |surplus| && surplus[0] == i
    && (forall j, k :: 0 < j < k < |surplus| ==> surplus[j] > surplus[k])
    && (forall a <- rivals, b <- rivals :: a in surplus && b !in surplus ==> a > b)
  }

  /** Instances are dropped only beyond the limit, in the order the strategy says. */
  lemma SurplusOrder(s: State, i: Id)
    requires Shape(s) && i in s.store && StatusOf(s.store[i]) == Planned && 0 < MaxQueued(s, i)
    ensures var surplus := Surplus(Duplicates(s, i), MaxQueued(s, i), KeepLast(s, i));
            if |Duplicates(s, i)| <= MaxQueued(s, i) then surplus == []
            else |surplus| == |Duplicates(s, i)| - MaxQueued(s, i)
                 && if KeepLast(s, i) then LastAreKept(Rivals(s, i), i, surplus)
                    else FirstAreKept(Rivals(s, i), i, surplus)
  {
    assert i !in Rivals(s, i);
    assert forall a <- Rivals(s, i) :: a < s.next;
    assert Duplicates(s, i) == Ascending(Rivals(s, i), s.next) + [i];
    hide *;
    SurplusIsOrdered(Rivals(s, i), Ascending(Rivals(s, i), s.next), i, MaxQueued(s, i), KeepLast(s, i));
  }

  lemma SurplusIsOrdered(rivals: set<Id>, order: seq<Id>, i: Id, max: nat, keepLast: bool)
    requires 0 < max && i !in rivals && (forall a <- rivals :: a in order) && (forall a <- order :: a in rivals)
    requires forall j, k :: 0 <= j < k < |order| ==> order[j] < order[k]
    ensures var all := order + [i];
            var surplus := Surplus(all, max, keepLast);
            if |all| <= max then surplus == []
            else |surplus| == |all| - max
                 && if keepLast then LastAreKept(rivals, i, surplus) else FirstAreKept(rivals, i, surplus)
  {
    var all := order + [i];
    if |all| > max {
      if keepLast {
        assert all[..|all| - max] == order[..|all| - max];
        LowestGo(rivals, order, |all| - max);
      } else {
        ReversedAt(all[max..]);
        HighestGo(rivals, order, i, max);
        hide Reversed;
      }
    }
  }

  lemma LowestGo(rivals: set<Id>, order: seq<Id>, n: nat)
    requires n <= |order| && (forall a <- rivals :: a in order)
    requires forall j, k :: 0 <= j < k < |order| ==> order[j] < order[k]
    ensures forall a <- rivals, b <- rivals :: a in order[..n] && b !in order[..n] ==> a < b
  {
    forall a <- rivals, b <- rivals | a in order[..n] && b !in order[..n] ensures a < b {
      var j :| 0 <= j < n && order[j] == a;
      var k :| 0 <= k < |order| && order[k] == b;
    }
  }

  lemma HighestGo(rivals: set<Id>, order: seq<Id>, i: Id, max: nat)
    requires max <= |order| && i !in rivals && (forall a <- rivals :: a in order)
    requires forall j, k :: 0 <= j < k < |order| ==> order[j] < order[k]
    ensures forall a <- rivals, b <- rivals :: a in (order + [i])[max..] && b !in (order + [i])[max..] ==> a > b
  {
    var tail := (order + [i])[max..];
    assert forall m :: max <= m < |order| ==> tail[m - max] == order[m];
    forall a <- rivals, b <- rivals | a in tail && b !in tail ensures a > b {
      var j :| 0 <= j < |tail| && tail[j] == a;
      assert max + j < |order| && order[max + j] == a;
      var k :| 0 <= k < |order| && order[k] == b;
    }
  }

  lemma {:induction false} ReversedAt(s: seq<Id>)
    ensures forall k :: 0 <= k < |s| ==> Reversed(s)[k] == s[|s| - 1 - k]
  {
    if s != [] {
      ReversedAt(s[1..]);
    }
  }

  // ---------------------------------------------------------------------------------------------
  // Queueing keeps the bound
  // ---------------------------------------------------------------------------------------------

  lemma AdmitKin(s: State, i: Id, t: TaskId, criterion: string)
    requires i in s.store
    ensures Kin(Admit(s, i).store, t, criterion) <= Kin(s.store, t, criterion) + {i}
    ensures (t, criterion) != (s.store[i].task, s.store[i].criterion) ==>
              Kin(Admit(s, i).store, t, criterion) <= Kin(s.store, t, criterion)
  {
    AdmitStore(s, i);
    hide Admit, StatusOf;
  }

  lemma AdmitStore(s: State, i: Id)
    requires i in s.store
    ensures Admit(s, i).cfg == s.cfg
    ensures Admit(s, i).store == s.store || Admit(s, i).store == s.store[i := s.store[i].(queued := true)]
  {
    hide QueueSize;
  }

  lemma AdmitSame(s: State, i: Id)
    requires i in s.store
    ensures Admit(s, i).cfg == s.cfg
    ensures NoForce(Admit(s, i)) ==> NoForce(s)
  {
    AdmitStore(s, i);
    hide Admit;
    var t := Admit(s, i);
    if NoForce(t) {
      forall j <- s.store ensures !s.store[j].force {
        assert j in t.store && t.store[j].force == s.store[j].force;
      }
    }
  }

  lemma AdmitDeduped(s: State, i: Id, task: TaskId, last: bool)
    requires Deduped(s, task, last) && i in s.store
    requires NoForce(s) && (last ==> !s.strayed) && s.store[i].task == task && 0 < MaxQueued(s, i) ==>
               |Kin(s.store, task, s.store[i].criterion)| < MaxQueued(s, i)
    ensures Deduped(Admit(s, i), task, last)
  {
    var t := Admit(s, i);
    AdmitSame(s, i);
    assert s.store[i] == Data(s, i);
    hide Admit, Kin, NoForce;
    if NoForce(t) && (last ==> !t.strayed) && task in t.cfg.tasks && 0 < t.cfg.tasks[task].maxQueued {
      forall criterion ensures |Kin(t.store, task, criterion)| <= t.cfg.tasks[task].maxQueued {
        AdmitKin(s, i, task, criterion);
        if (task, criterion) == (s.store[i].task, s.store[i].criterion) {
          SmallerSet(Kin(t.store, task, criterion), Kin(s.store, task, criterion) + {i});
        } else {
          SmallerSet(Kin(t.store, task, criterion), Kin(s.store, task, criterion));
        }
      }
    }
  }

  lemma KinAreRivals(s: State, i: Id, limbo: set<Id>)
    requires Shape(s) && Clean(s, limbo) && i in s.store && StatusOf(s.store[i]) == Planned
    ensures Kin(s.store, s.store[i].task, s.store[i].criterion) <= Rivals(s, i)
    ensures i !in Rivals(s, i) && Rivals(s, i) <= Elems(Ascending(Rivals(s, i), s.next))
    ensures i !in Ascending(Rivals(s, i), s.next)
  {
    hide Ascending, Coherent;
    var order := Ascending(Rivals(s, i), s.next);
    assert forall k :: 0 <= k < |order| ==> order[k] in Rivals(s, i);
    assert Data(s, i) == s.store[i];
  }

  /** After the surplus is canceled, there is room for the arriving instance unless it went too. */
  lemma RoomIsMade(s: State, i: Id, limbo: set<Id>, steady: bool)
    requires Inv(s, limbo, steady) && Settled(s, limbo) && Guarded(s, i) && 0 < MaxQueued(s, i)
    requires var surplus := Surplus(Duplicates(s, i), MaxQueued(s, i), KeepLast(s, i));
             i !in surplus && !CancelAll(s, surplus).strayed
    ensures var surplus := Surplus(Duplicates(s, i), MaxQueued(s, i), KeepLast(s, i));
            i in s.store && |Kin(CancelAll(s, surplus).store, s.store[i].task, s.store[i].criterion)| < MaxQueued(s, i)
  {
    var surplus := Surplus(Duplicates(s, i), MaxQueued(s, i), KeepLast(s, i));
    assert Duplicates(s, i) == Ascending(Rivals(s, i), s.next) + [i];
    hide *;
    var t := CancelAll(s, surplus);
    PlannedIsUnready(s, i);
    InvShape(s, limbo, steady);
    HerdsParts(s, limbo, steady);
    KinAreRivals(s, i, limbo);
    SurplusLeaves(Rivals(s, i), Ascending(Rivals(s, i), s.next), i, MaxQueued(s, i), KeepLast(s, i));
    DuplicatesAreKnown(s, i);
    SurplusAreDuplicates(Duplicates(s, i), MaxQueued(s, i), KeepLast(s, i));
    CancelAllQuietly(s, surplus, limbo, steady);
    KinLeft(s.store, t.store, surplus, s.store[i].task, s.store[i].criterion);
    SmallerSet(Kin(t.store, s.store[i].task, s.store[i].criterion), Rivals(s, i) - Elems(surplus));
  }

  lemma KinLeft(a: Store, b: Store, gone: seq<Id>, t: TaskId, criterion: string)
    requires Calmer(a, b) && forall j <- gone :: j in b && StatusOf(b[j]) != Queued
    ensures Kin(b, t, criterion) <= Kin(a, t, criterion) - Elems(gone)
  {
    hide StatusOf;
  }

  /** A task that does not keep the last instances only queues one when there is room already:
      otherwise it is the arriving instance that goes first. */
  lemma RefusedOrRoom(s: State, i: Id, limbo: set<Id>, steady: bool)
    requires Inv(s, limbo, steady) && Guarded(s, i) && 0 < MaxQueued(s, i) && !KeepLast(s, i)
    requires i !in Surplus(Duplicates(s, i), MaxQueued(s, i), KeepLast(s, i))
    ensures Surplus(Duplicates(s, i), MaxQueued(s, i), KeepLast(s, i)) == []
    ensures i in s.store && |Kin(s.store, s.store[i].task, s.store[i].criterion)| < MaxQueued(s, i)
  {
    assert Duplicates(s, i) == Ascending(Rivals(s, i), s.next) + [i];
    hide *;
    PlannedIsUnready(s, i);
    InvShape(s, limbo, steady);
    HerdsParts(s, limbo, steady);
    KinAreRivals(s, i, limbo);
    SurplusIsFirst(Ascending(Rivals(s, i), s.next), i, MaxQueued(s, i));
    FewElems(Ascending(Rivals(s, i), s.next));
    SmallerSet(Kin(s.store, s.store[i].task, s.store[i].criterion), Elems(Ascending(Rivals(s, i), s.next)));
  }

  lemma SurplusIsFirst(order: seq<Id>, i: Id, max: nat)
    requires 0 < max
    ensures i !in Surplus(order + [i], max, false) ==> Surplus(order + [i], max, false) == [] && |order| < max
  {
    var all := order + [i];
    if |all| > max {
      assert all[max..][|all| - max - 1] == i;
      assert i in all[max..] && i in Reversed(all[max..]);
    }
  }

  lemma {:induction false} EnqueueDeduped(s: State, i: Id, limbo: set<Id>, steady: bool, task: TaskId, last: bool)
    requires Inv(s, limbo, steady) && Settled(s, limbo) && Guarded(s, i) && Deduped(s, task, last)
    ensures Deduped(Enqueue(s, i), task, last)
    decreases |s.script|, 5, 0
  {
    hide *;
    EnqueueCases(s, i);
    InvShape(s, limbo, steady);
    PlannedIsUnready(s, i);
    DataIs(s, i);
    if Data(s, i).force {
      EnqueueKeeps(s, i, limbo, steady);
      ForcedIsDeduped(s, Enqueue(s, i), i, {i}, task, last);
    } else if Data(s, i).task !in s.enabled {
      CancelDeduped(s, i, limbo, steady, task, last);
    } else if MaxQueued(s, i) == 0 {
      AdmitDeduped(s, i, task, last);
    } else {
      var surplus := Surplus(Duplicates(s, i), MaxQueued(s, i), KeepLast(s, i));
      var t := CancelAll(s, surplus);
      SurplusCancels(s, i);
      CancelAllDeduped(s, surplus, if i in surplus then {i} else {}, limbo, steady, task, last);
      if i !in surplus {
        CancelAllKeeps(s, surplus, {}, limbo, steady);
        SameMax(s, t, {}, i);
        if !KeepLast(s, i) {
          RefusedOrRoom(s, i, limbo, steady);
          CancelAllCases(s, []);
        } else {
          OnlyLast(s, i, task, last);
          if !t.strayed {
            RoomIsMade(s, i, limbo, steady);
          }
        }
        AdmitDeduped(t, i, task, last);
      }
    }
  }

  lemma OnlyLast(s: State, i: Id, task: TaskId, last: bool)
    requires Deduped(s, task, last) && KeepLast(s, i) && 0 < MaxQueued(s, i)
    ensures i in s.store && s.store[i].task == task ==> last
  {
  }

  lemma {:induction false} CancelAllDeduped(s: State, ids: seq<Id>, except: set<Id>, limbo: set<Id>, steady: bool,
                                            task: TaskId, last: bool)
    requires Inv(s, limbo, steady) && Settled(s, limbo) && Cancels(s, ids, except) && Deduped(s, task, last)
    ensures Deduped(CancelAll(s, ids), task, last)
    decreases |s.script|, 4, |ids|
  {
    hide *;
    CancelAllCases(s, ids);
    if ids != [] {
      var t := Cancel(s, ids[0]);
      FirstCancels(s, ids, except);
      CancelKeeps(s, ids[0], limbo, steady);
      CancelsStays(s, t, ids, except, {ids[0]});
      SettledStays(s, t, limbo, {ids[0]});
      CancelDeduped(s, ids[0], limbo, steady, task, last);
      CancelAllDeduped(t, ids[1..], except, limbo, steady, task, last);
    }
  }

  lemma {:induction false} CancelDeduped(s: State, i: Id, limbo: set<Id>, steady: bool, task: TaskId, last: bool)
    requires Inv(s, limbo, steady) && Settled(s, limbo) && i in s.store && Deduped(s, task, last)
    ensures Deduped(Cancel(s, i), task, last)
    decreases |s.script|, 3, 0
  {
    hide *;
    CancelCases(s, i);
    InvShape(s, limbo, steady);
    if Unready(s.store, i) {
      if s.store[i].herd != i {
        DropSheepInv(s, i, false, limbo, steady);
        SameConfig(s, Cancel(s, i), {i});
        DropSheepCalmer(s, i, false, limbo, steady);
        CalmerDeduped(s, Cancel(s, i), task, last);
      } else {
        var t := CancelHerd(s, i);
        HerderOf(s.store, i);
        InstFacts(s, i, limbo, steady);
        CancelHerdEmpties(s, i, limbo, steady);
        CancelHerdInv(s, i, limbo, steady);
        SameConfig(s, t, {});
        SettledStays(s, t, limbo, {});
        CalmerDeduped(s, t, task, last);
        UnreadyIsStoppable(s, t, i, limbo);
        StopHerderDeduped(t, i, false, limbo, steady, task, last);
      }
    }
  }

  lemma DataIs(s: State, i: Id)
    requires i in s.store
    ensures Data(s, i) == s.store[i]
  {
  }

  lemma SameConfig(s: State, t: State, except: set<Id>)
    requires Later(s, t, except)
    ensures t.cfg == s.cfg
  {
    hide Evolves, Guarded, StatusOf;
  }

  lemma SameMax(s: State, t: State, except: set<Id>, i: Id)
    requires Later(s, t, except) && i in s.store
    ensures i in t.store && MaxQueued(t, i) == MaxQueued(s, i)
    ensures t.store[i].task == s.store[i].task && t.store[i].criterion == s.store[i].criterion
  {
    assert Evolves(i, s.store[i], t.store[i]);
    hide Evolves, Guarded, StatusOf;
  }

  lemma ForcedIsDeduped(s: State, t: State, i: Id, except: set<Id>, task: TaskId, last: bool)
    requires Later(s, t, except) && i in s.store && s.store[i].force && Deduped(s, task, last)
    ensures Deduped(t, task, last)
  {
    hide Kin, Guarded, StatusOf;
    assert Evolves(i, s.store[i], t.store[i]);
  }

  // ---------------------------------------------------------------------------------------------
  // The steps
  // ---------------------------------------------------------------------------------------------

  lemma {:induction false} PlanAllDeduped(s: State, reqs: seq<Request>, i: Id, limbo: set<Id>, steady: bool,
                                          task: TaskId, last: bool)
    requires Inv(s, limbo, steady) && Settled(s, limbo) && i in s.store && Deduped(s, task, last)
    ensures Deduped(PlanAll(s, reqs, i), task, last)
    decreases |s.script|, 7, |reqs|
  {
    hide *;
    PlanAllCases(s, reqs, i);
    if reqs != [] {
      var herd := HerdFor(s, reqs[0], i);
      var t := Plan(s, reqs[0], herd, i);
      InvShape(s, limbo, steady);
      PlanHerd(s, reqs[0], i, limbo, steady);
      PlanKeeps(s, reqs[0], herd, i, limbo, steady);
      StillThere(s, t, {}, i);
      SettledStays(s, t, limbo, {});
      PlanDeduped(s, reqs[0], herd, i, limbo, steady, task, last);
      PlanAllDeduped(t, reqs[1..], i, limbo, steady, task, last);
    }
  }

  lemma {:induction false} TriggerDeduped(s: State, i: Id, limbo: set<Id>, steady: bool, task: TaskId, last: bool)
    requires Inv(s, limbo, steady) && Settled(s, limbo) && i in s.store && Deduped(s, task, last)
    ensures Deduped(Trigger(s, i), task, last)
    decreases |s.script|, 0, 0
  {
    hide *;
    TriggerCases(s, i);
    if s.script != [] {
      var t := s.(script := s.script[1..]);
      ScriptIsAside(s, s.script[1..], limbo, steady);
      SettledStays(s, t, limbo, {});
      CalmerItself(s.store);
      CalmerDeduped(s, t, task, last);
      PlanAllDeduped(t, s.script[0], i, limbo, steady, task, last);
    }
  }

  lemma {:induction false} PlanDeduped(s: State, req: Request, herd: Id, parent: Id, limbo: set<Id>, steady: bool,
                                       task: TaskId, last: bool)
    requires Inv(s, limbo, steady) && Settled(s, limbo) && (herd == 0 || IsHerder(s.store, herd))
    requires Deduped(s, task, last)
    ensures Deduped(Plan(s, req, herd, parent), task, last)
    decreases |s.script|, 6, 0
  {
    hide *;
    PlanCases(s, req, herd, parent);
    if req.task in s.cfg.tasks && req.task in s.enabled {
      var t := Insert(s, req, herd, parent);
      var u := Trigger(t, s.next);
      InvShape(s, limbo, steady);
      NewIsGuarded(s, req, herd, parent);
      InsertInv(s, req, herd, parent, limbo, steady);
      InsertLater(s, req, herd, parent);
      InsertCalmer(s, req, herd, parent);
      SameConfig(s, t, {});
      CalmerDeduped(s, t, task, last);
      SettledStays(s, t, limbo, {});
      TriggerDeduped(t, s.next, limbo, steady, task, last);
      TriggerKeeps(t, s.next, limbo, steady);
      SettledStays(t, u, limbo, {});
      if herd in s.live && herd in s.store {
        SoilDeduped(u, herd, task, last);
      } else {
        LiveHerderIsKnown(s, herd);
        InvShape(t, limbo, steady);
        GuardedStays(t, u, {}, s.next);
        EnqueueDeduped(u, s.next, limbo, steady, task, last);
      }
    }
  }

  lemma SoilDeduped(s: State, h: Id, task: TaskId, last: bool)
    requires Deduped(s, task, last)
    ensures Deduped(Soil(s, h), task, last)
  {
    hide Kin;
  }

  lemma {:induction false} StopHerderDeduped(s: State, h: Id, asFailure: bool, limbo: set<Id>, steady: bool,
                                             task: TaskId, last: bool)
    requires Inv(s, limbo, steady) && Settled(s, limbo) && Stoppable(s, h, limbo) && Deduped(s, task, last)
    ensures Deduped(StopHerder(s, h, asFailure), task, last)
    decreases |s.script|, 2, 0
  {
    hide *;
    StoppableFacts(s, h, limbo);
    StopHerderCases(s, h, asFailure);
    WatchIsAside(s, h, limbo, steady);
    WatchDeduped(s, h, task, last);
    SettledStays(s, Watch(s, h), limbo, {});
    TriggerKeeps(Watch(s, h), h, limbo, steady);
    TriggerDeduped(Watch(s, h), h, limbo, steady, task, last);
    var t := Trigger(Watch(s, h), h);
    InvShape(s, limbo, steady);
    LaterThen(s, Watch(s, h), t, {});
    NotRunning(s, t, h, limbo, steady);
    SoilDeduped(t, h, task, last);
    FinishHerderCalmer(t, h, asFailure);
    FinishHerderSetting(t, h, asFailure);
    SameSettingConfig(t, FinishHerder(t, h, asFailure));
    CalmerDeduped(t, FinishHerder(t, h, asFailure), task, last);
  }

  lemma SameSettingConfig(s: State, t: State)
    requires SameSetting(s, t)
    ensures t.cfg == s.cfg
  {
  }

  lemma WatchDeduped(s: State, h: Id, task: TaskId, last: bool)
    requires Deduped(s, task, last)
    ensures Deduped(Watch(s, h), task, last)
  {
    hide Kin;
  }

  // ---------------------------------------------------------------------------------------------
  // Events and runs
  // ---------------------------------------------------------------------------------------------

  lemma NobodyInLimbo(s: State)
    ensures Settled(s, {})
  {
  }

  lemma LaunchCalmer(s: State, i: Id, h: HostId)
    requires i in s.store && StatusOf(s.store[i]) == Queued && Coherent(s.store[i])
    ensures Calmer(s.store, Launch(s, i, h).store) && Launch(s, i, h).strayed == s.strayed
  {
    LaunchRewrites(s, i, h);
    var inst := s.store[i].(target := h, started := true);
    hide Launch, Calmer, StatusOf, Coherent;
    CalmerPut(s.store, i, inst);
    assert Launch(s, i, h).strayed == s.strayed by { LaunchStrays(s, i, h); }
  }

  lemma LaunchStrays(s: State, i: Id, h: HostId)
    ensures Launch(s, i, h).strayed == s.strayed
  {
    hide Charged, ResourcesOf;
  }

  lemma StartDeduped(s: State, i: Id, steady: bool, task: TaskId, last: bool)
    requires Inv(s, {}, steady) && i in s.store && StatusOf(s.store[i]) == Queued && Deduped(s, task, last)
    ensures Deduped(Start(s, i), task, last)
  {
    hide *;
    StartCases(s, i);
    InvShape(s, {}, steady);
    QueuedFacts(s, i, {}, steady);
    NobodyInLimbo(s);
    var t := Start(s, i);
    if t == s {
    } else if s.store[i].herd == i && t == StopHerder(s, i, true) {
      QueuedIsStoppable(s, i);
      StopHerderDeduped(s, i, true, {}, steady, task, last);
    } else if s.store[i].herd != i && t == DropSheep(s, i, true) {
      SheepHasStartedHerder(s, i, {}, steady);
      DropSheepInv(s, i, true, {}, steady);
      SameConfig(s, t, {i});
      DropSheepCalmer(s, i, true, {}, steady);
      CalmerDeduped(s, t, task, last);
    } else {
      var h :| MayLaunch(s, i, h) && t == Trigger(Launch(s, i, h), i);
      LaunchInv(s, i, h, steady);
      LaunchCalmer(s, i, h);
      LaunchConfig(s, i, h);
      CalmerDeduped(s, Launch(s, i, h), task, last);
      NobodyInLimbo(Launch(s, i, h));
      TriggerDeduped(Launch(s, i, h), i, {}, steady, task, last);
    }
  }

  lemma StartAllCases(s: State, ids: seq<Id>)
    requires ids != []
    ensures var go := ids[0] in s.store && StatusAt(s, ids[0]) == Queued;
            && StartAll(s, ids) == StartAll(if go then Start(s, ids[0]) else s, ids[1..])
            && (go ==> StatusOf(s.store[ids[0]]) == Queued)
  {
    hide Start, StatusOf;
  }

  lemma {:induction false} StartAllDeduped(s: State, ids: seq<Id>, steady: bool, task: TaskId, last: bool)
    requires Inv(s, {}, steady) && Deduped(s, task, last)
    ensures Deduped(StartAll(s, ids), task, last)
    decreases |ids|
  {
    if ids != [] {
      hide *;
      StartAllCases(s, ids);
      if ids[0] in s.store && StatusAt(s, ids[0]) == Queued {
        StartKeeps(s, ids[0], steady);
        StartDeduped(s, ids[0], steady, task, last);
        StartAllDeduped(Start(s, ids[0]), ids[1..], steady, task, last);
      } else {
        StartAllDeduped(s, ids[1..], steady, task, last);
      }
    }
  }

  lemma ReevaluateAllCases(s: State, ids: seq<Id>, dirty: set<Id>)
    requires ids != []
    ensures var go := ids[0] in s.store && Data(s, ids[0]).herd in dirty;
            ReevaluateAll(s, ids, dirty)
            == ReevaluateAll(if go then Reevaluate(s, ids[0]) else s, ids[1..], dirty)
  {
    hide Reevaluate, Data;
  }

  lemma ReevaluateDeduped(s: State, i: Id, steady: bool, task: TaskId, last: bool)
    requires Inv(s, {}, steady) && i in s.store && Deduped(s, task, last)
    ensures Deduped(Reevaluate(s, i), task, last)
  {
    hide *;
    InvShape(s, {}, steady);
    NobodyInLimbo(s);
    ReevaluateCases(s, i);
    CancelDeduped(s, i, {}, steady, task, last);
    if Guarded(s, i) {
      EnqueueDeduped(s, i, {}, steady, task, last);
    }
  }

  lemma {:induction false} ReevaluateAllDeduped(s: State, ids: seq<Id>, dirty: set<Id>, steady: bool,
                                                task: TaskId, last: bool)
    requires Inv(s, {}, steady) && Deduped(s, task, last)
    ensures Deduped(ReevaluateAll(s, ids, dirty), task, last)
    decreases |ids|
  {
    if ids != [] {
      hide *;
      ReevaluateAllCases(s, ids, dirty);
      if ids[0] in s.store && Data(s, ids[0]).herd in dirty {
        ReevaluateKeeps(s, ids[0], steady);
        ReevaluateDeduped(s, ids[0], steady, task, last);
        ReevaluateAllDeduped(Reevaluate(s, ids[0]), ids[1..], dirty, steady, task, last);
      } else {
        ReevaluateAllDeduped(s, ids[1..], dirty, steady, task, last);
      }
    }
  }

  lemma {:induction false} CancelOrphansDeduped(s: State, ids: seq<Id>, steady: bool, task: TaskId, last: bool)
    requires Inv(s, {}, steady) && Deduped(s, task, last)
    ensures Deduped(CancelOrphans(s, ids), task, last)
    decreases |ids|
  {
    if ids != [] {
      assert Cancelable(s, ids[0]) ==> ids[0] in s.store;
      OrphansCases(s, ids);
      hide *;
      NobodyInLimbo(s);
      if Cancelable(s, ids[0]) && Data(s, ids[0]).task !in s.cfg.tasks {
        CancelKeeps(s, ids[0], {}, steady);
        CancelDeduped(s, ids[0], {}, steady, task, last);
        CancelOrphansDeduped(Cancel(s, ids[0]), ids[1..], steady, task, last);
      } else {
        CancelOrphansDeduped(s, ids[1..], steady, task, last);
      }
    }
  }

  lemma VacateCalmer(s: State, i: Id, ok: bool)
    requires i in s.busy && i in s.store && StatusOf(s.store[i]) == Running
    ensures Calmer(s.store, Vacate(s, i, ok).store)
    ensures Vacate(s, i, ok).cfg == s.cfg && Vacate(s, i, ok).strayed == s.strayed
  {
    var inst := s.store[i].(stopped := true, success := ok, reported := ok);
    assert StatusOf(inst) != Queued;
    assert Vacate(s, i, ok).store == s.store[i := inst];
    hide Calmer, StatusOf;
    CalmerPut(s.store, i, inst);
  }

  lemma StopDeduped(s: State, i: Id, ok: bool, steady: bool, task: TaskId, last: bool)
    requires Inv(s, {}, steady) && i in s.busy && Deduped(s, task, last)
    ensures Deduped(Stop(s, i, ok), task, last)
  {
    hide *;
    var t := Vacate(s, i, ok);
    BusyIsRunning(s, i, steady);
    VacateInv(s, i, ok, steady);
    VacateCalmer(s, i, ok);
    CalmerDeduped(s, t, task, last);
    StopCases(s, i, ok);
    if t.store[i].herd == i {
      HerderSettled(t, i);
      StopHerderDeduped(t, i, false, {i}, steady, task, last);
    } else {
      StopSheepDeduped(t, i, steady, task, last);
    }
  }

  lemma HerderSettled(s: State, h: Id)
    requires h in s.store && s.store[h].herd == h
    ensures Settled(s, {h})
  {
  }

  lemma StopSheepCases(s: State, i: Id)
    ensures StopSheep(s, i) == Release(Forget(Trigger(Close(s, i, false), i), i), i)
  {
    hide Release, Forget, Trigger, Close;
  }

  lemma StopSheepDeduped(s: State, i: Id, steady: bool, task: TaskId, last: bool)
    requires Inv(s, {}, steady) && i in s.store && s.store[i].herd != i && StatusOf(s.store[i]) == Waiting
    requires Deduped(s, task, last)
    ensures Deduped(StopSheep(s, i), task, last)
  {
    hide *;
    var t := Close(s, i, false);
    var u := Trigger(t, i);
    StopSheepCases(s, i);
    InvShape(s, {}, steady);
    InstFacts(s, i, {}, steady);
    SheepHasStartedHerder(s, i, {}, steady);
    CloseCalmer(s, i, false);
    CloseSheepInv(s, i, false, {}, steady);
    assert {} + {i} == {i};
    SameConfig(s, t, {i});
    CalmerDeduped(s, t, task, last);
    StillThere(s, t, {i}, i);
    ClosedIsSettled(s, i);
    TriggerDeduped(t, i, {i}, steady, task, last);
    TriggerKeeps(t, i, {i}, steady);
    StaysInLimbo(t, u, i, {i}, {});
    InvShape(u, {i}, steady);
    ReleaseCalmer(u, i, {i}, steady);
    ReleaseInv(u, i, {i}, steady);
    SameConfig(u, StopSheep(s, i), {});
    CalmerDeduped(u, StopSheep(s, i), task, last);
  }

  lemma ClosedIsSettled(s: State, i: Id)
    requires i in s.store && Coherent(s.store[i]) && StatusOf(s.store[i]) == Waiting
    ensures Settled(Close(s, i, false), {i})
  {
    ClosedEffect(s, i, false);
    CloseEffect(s, i, false);
    hide Close, Closed;
  }

  lemma AbortDeduped(s: State, i: Id, steady: bool, task: TaskId, last: bool)
    requires Inv(s, {}, steady) && Deduped(s, task, last)
    ensures Deduped(Abort(s, i), task, last)
  {
    AbortIs(s, i);
    hide *;
    InvShape(s, {}, steady);
    SheepAreSheep(s, i, {}, steady);
    CancelHerdIs(s, i);
    DropSheepOfCalmer(s, Ascending(Sheep(s, i), s.next), i, {}, steady);
    CancelHerdFollows(s, Ascending(Sheep(s, i), s.next), i, steady);
    FollowsConfig(s, CancelHerd(s, i));
    CalmerDeduped(s, CancelHerd(s, i), task, last);
  }

  lemma AbortIs(s: State, i: Id)
    ensures Abort(s, i) == s || Abort(s, i) == CancelHerd(s, i)
  {
    hide CancelHerd, StatusOf;
  }

  lemma FollowsConfig(s: State, t: State)
    requires Follows(s, t)
    ensures t.cfg == s.cfg
  {
    hide Progress, Permanent;
  }

  lemma ActivateDeduped(s: State, cfg: Config, task: TaskId, last: bool)
    requires Deduped(s, task, last) && Milder(s, cfg) && (KeepsLast(cfg, task) ==> last)
    ensures Deduped(Activate(s, cfg), task, last)
  {
    var t := Activate(s, cfg);
    ActivateEffect(s, cfg);
    hide Activate, ResourcesOf, PolicyOf, Capacity;
    assert t.strayed == s.strayed by { ActivateStrays(s, cfg); }
    if NoForce(t) && (last ==> !t.strayed) && task in t.cfg.tasks && 0 < t.cfg.tasks[task].maxQueued {
      forall criterion ensures |Kin(t.store, task, criterion)| <= t.cfg.tasks[task].maxQueued {
        if task !in s.cfg.tasks {
          assert Kin(t.store, task, criterion) == {};
        }
        assert Kin(s.store, task, criterion) == Kin(t.store, task, criterion);
      }
    }
  }

  lemma ActivateStrays(s: State, cfg: Config)
    ensures Activate(s, cfg).strayed == s.strayed
  {
    ResizeEffect(s, cfg.maxTotal);
    hide Resize;
  }

  lemma SameDeduped(s: State, t: State, task: TaskId, last: bool)
    requires Deduped(s, task, last) && t.store == s.store && t.cfg == s.cfg && t.strayed == s.strayed
    ensures Deduped(t, task, last)
  {
    hide Kin;
  }

  lemma ReloadDeduped(s: State, cfg: Config, script: seq<seq<Request>>, task: TaskId, last: bool)
    requires Inv(s, {}, true) && Milder(s, cfg) && Deduped(s, task, last) && (KeepsLast(cfg, task) ==> last)
    ensures Deduped(CancelOrphans(Activate(s.(script := script), cfg), Ascending(s.live, s.next)), task, last)
  {
    hide *;
    var t := s.(script := script);
    MilderAside(s, script, cfg);
    Scripted(s, script, true);
    SameDeduped(s, t, task, last);
    ActivateKeeps(t, cfg, true);
    ActivateDeduped(t, cfg, task, last);
    CancelOrphansDeduped(Activate(t, cfg), Ascending(s.live, s.next), true, task, last);
  }

  lemma CancelEventDeduped(s: State, i: Id, script: seq<seq<Request>>, steady: bool, task: TaskId, last: bool)
    requires Inv(s, {}, steady) && Deduped(s, task, last)
    ensures Deduped(if i in s.live then Cancel(s.(script := script), i) else s, task, last)
  {
    hide *;
    if i in s.live {
      var t := s.(script := script);
      Scripted(s, script, steady);
      SameDeduped(s, t, task, last);
      NobodyInLimbo(t);
      InvShape(s, {}, steady);
      LiveHerderIsKnown(s, i);
      CancelDeduped(t, i, {}, steady, task, last);
    }
  }

  lemma AbortEventDeduped(s: State, i: Id, task: TaskId, last: bool)
    requires Inv(s, {}, true) && Deduped(s, task, last)
    ensures Deduped(if i in s.live then Abort(s, i) else s, task, last)
  {
    hide *;
    AbortDeduped(s, i, true, task, last);
  }

  lemma SettingEventDeduped(s: State, enabled: set<TaskId>, up: set<HostId>, order: map<string, seq<HostId>>,
                            task: TaskId, last: bool)
    requires Deduped(s, task, last)
    ensures Deduped(s.(enabled := enabled), task, last) && Deduped(s.(up := up, order := order), task, last)
  {
    hide *;
    SameDeduped(s, s.(enabled := enabled), task, last);
    SameDeduped(s, s.(up := up, order := order), task, last);
  }

  lemma ReevaluateEventDeduped(s: State, script: seq<seq<Request>>, steady: bool, task: TaskId, last: bool)
    requires Inv(s, {}, steady) && Deduped(s, task, last)
    ensures Deduped(ReevaluateAll(s.(script := script, dirty := {}), Ascending(s.live, s.next), s.dirty), task, last)
  {
    var t := s.(script := script, dirty := {});
    assert SameHerds(s, t) && SameBooks(s, t);
    hide *;
    SameDeduped(s, t, task, last);
    AsideKeeps(s, t, steady);
    ReevaluateAllDeduped(t, Ascending(s.live, s.next), s.dirty, steady, task, last);
  }

  lemma PlanEventDeduped(s: State, req: Request, herd: Id, script: seq<seq<Request>>, steady: bool, task: TaskId,
                         last: bool)
    requires Inv(s, {}, steady) && Deduped(s, task, last) && (herd == 0 || IsHerder(s.store, herd))
    ensures Deduped(Plan(s.(script := script), req, herd, 0), task, last)
  {
    hide *;
    var t := s.(script := script);
    Scripted(s, script, steady);
    SameDeduped(s, t, task, last);
    NobodyInLimbo(t);
    PlanDeduped(t, req, herd, 0, {}, steady, task, last);
  }

  lemma StartEventDeduped(s: State, script: seq<seq<Request>>, task: TaskId, last: bool)
    requires Inv(s, {}, true) && Deduped(s, task, last)
    ensures Deduped(StartAll(s.(script := script), Ascending(s.live, s.next)), task, last)
  {
    hide *;
    Scripted(s, script, true);
    SameDeduped(s, s.(script := script), task, last);
    StartAllDeduped(s.(script := script), Ascending(s.live, s.next), true, task, last);
  }

  lemma StopEventDeduped(s: State, i: Id, ok: bool, script: seq<seq<Request>>, task: TaskId, last: bool)
    requires Inv(s, {}, true) && Deduped(s, task, last) && i in s.busy
    ensures Deduped(Stop(s.(script := script), i, ok), task, last)
  {
    hide *;
    Scripted(s, script, true);
    SameDeduped(s, s.(script := script), task, last);
    StopDeduped(s.(script := script), i, ok, true, task, last);
  }

  lemma ApplyDeduped(s: State, e: Event, task: TaskId, last: bool)
    requires Inv(s, {}, true) && Enabled(s, e) && Mild(s, e) && Deduped(s, task, last)
    requires e.ReloadEvent? && KeepsLast(e.cfg, task) ==> last
    ensures Deduped(Apply(s, e), task, last)
  {
    hide Inv, Deduped, Plan, ReevaluateAll, StartAll, Stop, Cancel, Abort, CancelOrphans, Activate, Milder,
         Ascending;
    match e {
      case PlanEvent(req, herd, script) => PlanEventDeduped(s, req, herd, script, true, task, last);
      case ReevaluateEvent(script) => ReevaluateEventDeduped(s, script, true, task, last);
      case StartEvent(script) => StartEventDeduped(s, script, task, last);
      case StopEvent(i, ok, script) => StopEventDeduped(s, i, ok, script, task, last);
      case CancelEvent(i, script) => CancelEventDeduped(s, i, script, true, task, last);
      case AbortEvent(i) => AbortEventDeduped(s, i, task, last);
      case EnableEvent(_, _) => SettingEventDeduped(s, Apply(s, e).enabled, s.up, s.order, task, last);
      case HostsEvent(up, order) => SettingEventDeduped(s, s.enabled, up, order, task, last);
      case ReloadEvent(cfg, script) => ReloadDeduped(s, cfg, script, task, last);
    }
  }

  lemma {:induction false} RunDeduped(s: State, events: seq<Event>, task: TaskId, last: bool)
    requires Inv(s, {}, true) && Possible(s, events) && Steady(s, events) && Deduped(s, task, last)
    requires forall e <- events :: e.ReloadEvent? && KeepsLast(e.cfg, task) ==> last
    ensures Deduped(After(s, events), task, last)
    decreases |events|
  {
    if events != [] {
      var t := Apply(s, events[0]);
      assert Possible(t, events[1..]) && Enabled(s, events[0]);
      assert After(s, events) == After(t, events[1..]);
      assert Mild(s, events[0]) && Steady(t, events[1..]);
      assert events[0] in events && forall e <- events[1..] :: e in events;
      hide *;
      ApplyKeeps(s, events[0], true);
      ApplyDeduped(s, events[0], task, last);
      RunDeduped(t, events[1..], task, last);
    }
  }

  /** In a steady run without forced instances, no more instances of a task with one deduplicate
      criterion are ever queued than the task allows, unless the task keeps the last instances; if
      it does, unless a canceled instance has planned new ones. */
  lemma DuplicatesAreBounded(cfg: Config, up: set<HostId>, order: map<string, seq<HostId>>, events: seq<Event>,
                             task: TaskId, criterion: string)
    requires Possible(Initial(cfg, up, order), events) && Steady(Initial(cfg, up, order), events)
    requires var s := After(Initial(cfg, up, order), events);
             NoForce(s) && task in s.cfg.tasks && 0 < s.cfg.tasks[task].maxQueued
    requires || !After(Initial(cfg, up, order), events).strayed
             || (!KeepsLast(cfg, task) && forall e <- events :: e.ReloadEvent? ==> !KeepsLast(e.cfg, task))
    ensures var s := After(Initial(cfg, up, order), events);
            |Kin(s.store, task, criterion)| <= s.cfg.tasks[task].maxQueued
  {
    var s := Initial(cfg, up, order);
    var last := KeepsLast(cfg, task) || exists e <- events :: e.ReloadEvent? && KeepsLast(e.cfg, task);
    assert Deduped(s, task, last) by {
      assert forall c :: Kin(s.store, task, c) == {};
    }
    hide Possible, Steady, After, Initial, Inv, Kin, NoForce;
    InitialInv(cfg, up, order, true);
    RunDeduped(s, events, task, last);
  }
}
