/** What actions cannot do to an instance: those that an arriving instance cannot displace stay as
    they are, whatever is planned, queued and canceled meanwhile, and so do their herds. */
module SchedulerShelter {
  import opened TaskStatus
  import opened SchedulerModel
  import opened SchedulerInvariants
  import opened SchedulerHerds
  import opened SchedulerBooks
  import opened SchedulerSteps
  import opened SchedulerActions
  import opened SchedulerRuns
  import opened SchedulerTheorems
  import opened SchedulerQueue

  // ---------------------------------------------------------------------------------------------
  // Sheltered instances
  // ---------------------------------------------------------------------------------------------

  /** Why no arriving instance can displace a queued one: its task does not limit its queued
      instances, or refuses those that arrive beyond the limit, or no action asks for it, or its limit
      is higher than that on all queued instances. */
  datatype Shelter = Unlimited | Refusing | Unasked | Roomy

  ghost predicate NeverAsked(script: seq<seq<Request>>, t: TaskId) {
    forall reqs <- script, r <- reqs :: r.task != t
  }

  /** An instance that runs, or is planned and is its own herder or has one that started or is gone,
      or is queued and cannot be displaced, or has stopped and awaits nobody. */
  ghost predicate Sheltered(s: State, j: Id, m: Shelter) {
    && j in s.store
    && (|| StatusOf(s.store[j]) == Running
        || Guarded(s, j)
        || (&& StatusOf(s.store[j]) == Queued && (m == Unlimited ==> MaxQueued(s, j) == 0)
            && (m == Roomy ==> s.cfg.maxQueued < MaxQueued(s, j)))
        || (StatusOf(s.store[j]) == Waiting && j in s.live && Get(s.awaited, j, {}) == {}))
    && (m == Refusing ==> Deduped(s, s.store[j].task, false))
    && (m == Unasked ==> NeverAsked(s.script, s.store[j].task))
  }

  /** Refusing tasks are only within their limits where nothing was forced. */
  ghost predicate Unforced(m: Shelter, s: State) {
    m == Refusing ==> NoForce(s)
  }

  /** The queued instances of a task. */
  ghost function Line(store: Store, t: TaskId): set<Id> {
    set i | i in store && StatusOf(store[i]) == Queued && store[i].task == t
  }

  /** The instance is as it was, its herder is still there, and if it has not started itself, it
      still awaits those it awaited. No instance of a task that is not asked for is newly queued. */
  ghost predicate Spares(s: State, t: State, j: Id, m: Shelter) {
    && j in s.store && j in t.store && StatusOf(t.store[j]) == StatusOf(s.store[j])
    && t.store[j].task == s.store[j].task && t.store[j].herd == s.store[j].herd
    && (s.store[j].herd in s.live ==> s.store[j].herd in t.live) && (j in s.live ==> j in t.live)
    && (Unready(s.store, j) ==> Get(s.awaited, j, {}) <= Get(t.awaited, j, {}))
    && (m == Unasked ==> Line(t.store, s.store[j].task) <= Line(s.store, s.store[j].task))
  }

  /** Nobody joins or leaves the herd of an instance that has not started, or has stopped. */
  ghost predicate Apart(s: State, t: State, j: Id) {
    j in s.store && (Unready(s.store, j) || StatusOf(s.store[j]) == Waiting) ==>
      Get(t.awaited, j, {}) == Get(s.awaited, j, {})
  }

  lemma SparesTrans(s: State, t: State, u: State, j: Id, m: Shelter)
    requires Spares(s, t, j, m) && Spares(t, u, j, m)
    ensures Spares(s, u, j, m)
    ensures Apart(s, t, j) && Apart(t, u, j) ==> Apart(s, u, j)
  {
    hide StatusOf, Line;
  }

  lemma SparesSame(s: State, t: State, j: Id, m: Shelter)
    requires j in s.store && t.store == s.store && t.live == s.live && t.awaited == s.awaited
    ensures Spares(s, t, j, m) && Apart(s, t, j)
  {
    hide StatusOf, Line;
  }

  lemma ShelteredFacts(s: State, j: Id, m: Shelter)
    requires Sheltered(s, j, m)
    ensures j in s.store && !Done(s.store, j)
    ensures StatusOf(s.store[j]) == Planned ==> Guarded(s, j)
    ensures m == Refusing ==> Deduped(s, s.store[j].task, false)
    ensures m == Unasked ==> NeverAsked(s.script, s.store[j].task)
  {
    hide Deduped, NeverAsked;
  }

  lemma StillSheltered(s: State, t: State, j: Id, m: Shelter, except: set<Id>)
    requires Shape(s) && Later(s, t, except) && j !in except && Sheltered(s, j, m) && Spares(s, t, j, m)
    requires m == Refusing ==> Deduped(t, s.store[j].task, false)
    requires m == Unasked ==> NeverAsked(t.script, s.store[j].task)
    requires StatusOf(s.store[j]) == Waiting ==> Apart(s, t, j)
    ensures Sheltered(t, j, m)
  {
    SameMax(s, t, except, j);
    if Guarded(s, j) {
      GuardedStays(s, t, except, j);
    }
    hide Deduped, NeverAsked, StatusOf, Guarded, Later, Line, MaxQueued, Shape;
  }

  lemma UnforcedBefore(s: State, t: State, except: set<Id>, m: Shelter)
    requires Later(s, t, except) && Unforced(m, t)
    ensures Unforced(m, s)
  {
    hide Guarded, StatusOf;
    if m == Refusing {
      forall i <- s.store ensures !s.store[i].force {
        assert i in t.store && Evolves(i, s.store[i], t.store[i]);
      }
    }
  }

  lemma CalmerLine(a: Store, b: Store, t: TaskId)
    requires Calmer(a, b)
    ensures Line(b, t) <= Line(a, t)
  {
    hide StatusOf;
  }

  // ---------------------------------------------------------------------------------------------
  // Steps that call no action
  // ---------------------------------------------------------------------------------------------

  /** One other instance was rewritten, or is new, and the live map and awaited sets kept what they
      held of the instance. */
  lemma SparesOf(s: State, t: State, j: Id, m: Shelter)
    requires j in s.store && j in t.store && StatusOf(t.store[j]) == StatusOf(s.store[j])
    requires t.store[j].task == s.store[j].task && t.store[j].herd == s.store[j].herd
    requires (s.store[j].herd in s.live ==> s.store[j].herd in t.live) && (j in s.live ==> j in t.live)
    requires Unready(s.store, j) ==> Get(s.awaited, j, {}) <= Get(t.awaited, j, {})
    requires Calmer(s.store, t.store)
    ensures Spares(s, t, j, m)
  {
    CalmerLine(s.store, t.store, s.store[j].task);
    hide StatusOf, Line, Calmer;
  }

  lemma InsertSpares(s: State, req: Request, herd: Id, parent: Id, j: Id, m: Shelter)
    requires Shape(s) && (herd == 0 || IsHerder(s.store, herd)) && j in s.store
    ensures var t := Insert(s, req, herd, parent);
            && Spares(s, t, j, m) && (herd != j ==> Apart(s, t, j)) && j != s.next
            && s.next in t.store && t.store[s.next].herd == (if herd == 0 then s.next else herd)
            && (herd in s.live && herd == j ==> s.next in Get(t.awaited, j, {}))
  {
    hide *;
    InsertCalmer(s, req, herd, parent);
    InsertAt(s, req, herd, parent, j);
    InsertIndexes(s, req, herd, parent, j);
    SparesOf(s, Insert(s, req, herd, parent), j, m);
    IsApart(s, Insert(s, req, herd, parent), j);
  }

  lemma IsApart(s: State, t: State, j: Id)
    ensures Get(t.awaited, j, {}) == Get(s.awaited, j, {}) ==> Apart(s, t, j)
  {
    hide StatusOf;
  }

  lemma InsertAt(s: State, req: Request, herd: Id, parent: Id, j: Id)
    requires Shape(s) && (herd == 0 || IsHerder(s.store, herd)) && j in s.store
    ensures var t := Insert(s, req, herd, parent);
            && j in t.store && StatusOf(t.store[j]) == StatusOf(s.store[j]) && j != s.next
            && t.store[j].task == s.store[j].task && t.store[j].herd == s.store[j].herd && s.live <= t.live
  {
    InsertEffect(s, req, herd, parent);
    hide Insert, StatusOf, SameSetting, Shape;
  }

  lemma InsertIndexes(s: State, req: Request, herd: Id, parent: Id, j: Id)
    requires Shape(s) && (herd == 0 || IsHerder(s.store, herd)) && j in s.store
    ensures var t := Insert(s, req, herd, parent);
            && s.next in t.store && t.store[s.next].herd == (if herd == 0 then s.next else herd)
            && Get(s.awaited, j, {}) <= Get(t.awaited, j, {})
            && (herd != j ==> Get(t.awaited, j, {}) == Get(s.awaited, j, {}))
            && (herd in s.live && herd == j ==> Get(t.awaited, j, {}) == Get(s.awaited, j, {}) + {s.next})
  {
    var herded := herd in s.live && herd in s.store;
    var inst := NewInst(s.next, req, herd, herded, parent);
    NewInstIsNewborn(s, req, herd, parent);
    EnterEffect(s, inst, herd, herded);
    assert Insert(s, req, herd, parent) == Enter(s, inst, herd, herded);
    hide Insert, Enter, NewInst, Coherent, StatusOf;
  }

  lemma AdmitSpares(s: State, i: Id, j: Id, m: Shelter)
    requires i in s.store && j in s.store && i != j
    requires m == Unasked ==> s.store[i].task != s.store[j].task
    ensures Spares(s, Admit(s, i), j, m) && Apart(s, Admit(s, i), j)
    ensures Admit(s, i).script == s.script
  {
    AdmitStore(s, i);
    assert Admit(s, i).awaited == s.awaited && s.live <= Admit(s, i).live by { AdmitKeepsIndexes(s, i); }
    hide Admit, StatusOf;
    assert m == Unasked ==> Line(Admit(s, i).store, s.store[j].task) <= Line(s.store, s.store[j].task);
  }

  lemma AdmitKeepsIndexes(s: State, i: Id)
    ensures Admit(s, i).awaited == s.awaited && s.live <= Admit(s, i).live
  {
    hide QueueSize, Data;
  }

  /** A herder is finished: neither the instance, nor its herder. */
  lemma FinishHerderSpares(s: State, h: Id, asFailure: bool, j: Id, m: Shelter, limbo: set<Id>)
    requires Indexed(s, limbo) && Shape(s) && IsHerder(s.store, h)
    requires j in s.store && !Done(s.store, j) && j != h && s.store[j].herd != h
    ensures Spares(s, FinishHerder(s, h, asFailure), j, m) && Apart(s, FinishHerder(s, h, asFailure), j)
  {
    assert Coherent(s.store[h]) && IsHerder(s.store, s.store[j].herd);
    FinishHerderCalmer(s, h, asFailure);
    var t := FinishHerder(s, h, asFailure);
    var gone := FinishHerderEffect(s, h, asFailure);
    if h in s.live {
      assert HerdIndexed(s, limbo, h);
    } else {
      assert h !in s.herds;
    }
    hide FinishHerder, Closed, Indexed, StatusOf, Shape, Coherent, Calmer, Pending;
    SparesOf(s, t, j, m);
  }

  /** A finished sheep is released: it is not the instance, nor is the herder that this may finish. */
  lemma ReleaseSpares(s: State, i: Id, j: Id, m: Shelter, limbo: set<Id>, steady: bool)
    requires Herds(s, limbo, steady) && InLimbo(s, i, limbo)
    requires j in s.store && !Done(s.store, j)
    requires s.store[i].herd == j ==> StatusOf(s.store[j]) == Running
    ensures Spares(s, Release(Forget(s, i), i), j, m) && Apart(s, Release(Forget(s, i), i), j)
  {
    var g := s.store[i].herd;
    if g in s.live {
      var t := Unawait(s, i);
      var u := Release(Forget(s, i), i);
      StillAwaited(s, i, limbo, steady);
      ReleaseCases(s, i);
      UnawaitSpares(s, i, j, m, limbo);
      if Get(t.awaited, g, {}) == {} && StatusOf(s.store[g]) == Waiting {
        LastOfHerd(s, i, j, limbo);
        UnawaitKeeps(s, i, limbo, steady);
        hide Herds, Clean, Herding, Judged, StatusOf, Indexed, Shape, Release, Forget, Unawait, FinishHerder;
        FinishHerderSpares(t, g, false, j, m, limbo - {i});
        SparesTrans(s, t, u, j, m);
      } else {
        assert u == Soil(t, g);
        hide *;
        SoilSpares(t, g, j, m);
        SparesTrans(s, t, Soil(t, g), j, m);
      }
    } else {
      NoIndexes(s, g, limbo, steady);
      OrphanSpares(s, i, j, m);
    }
  }

  lemma SoilSpares(s: State, h: Id, j: Id, m: Shelter)
    requires j in s.store
    ensures Spares(s, Soil(s, h), j, m) && Apart(s, Soil(s, h), j) && Soil(s, h).script == s.script
  {
    SparesSame(s, Soil(s, h), j, m);
    hide Spares;
  }

  lemma OrphanSpares(s: State, i: Id, j: Id, m: Shelter)
    requires i in s.store && s.store[i].herd != i && s.store[i].herd !in s.live && s.store[i].herd !in s.awaited
    requires j in s.store && IsHerder(s.store, s.store[j].herd) && j != i
    ensures Spares(s, Release(Forget(s, i), i), j, m) && Apart(s, Release(Forget(s, i), i), j)
  {
    hide FinishHerder, StatusOf, Sheep, Line;
    assert Forget(s, i) == s.(live := s.live - {i});
    hide Forget;
  }

  lemma UnawaitSpares(s: State, i: Id, j: Id, m: Shelter, limbo: set<Id>)
    requires i in s.store && j in s.store && (s.store[i].herd == j ==> StatusOf(s.store[j]) == Running)
    ensures Spares(s, Unawait(s, i), j, m) && Apart(s, Unawait(s, i), j)
  {
    hide StatusOf, Line;
  }

  /** A herder that has only one sheep to wait for has no other unfinished sheep. */
  lemma LastOfHerd(s: State, i: Id, j: Id, limbo: set<Id>)
    requires Indexed(s, limbo) && InLimbo(s, i, limbo) && s.store[i].herd in s.live
    requires IsHerder(s.store, s.store[i].herd) && j in s.store && !Done(s.store, j)
    requires Get(Unawait(s, i).awaited, s.store[i].herd, {}) == {}
    ensures s.store[j].herd == s.store[i].herd ==> j == s.store[i].herd
  {
    var g := s.store[i].herd;
    assert HerdIndexed(s, limbo, g);
    hide Indexed;
    assert i != j && (s.store[j].herd == g && j != g ==> j in Pending(s.store, g, limbo));
    assert Get(Unawait(s, i).awaited, g, {}) == Get(s.awaited, g, {}) - {i};
    assert j in Get(s.awaited, g, {}) ==> j in Get(s.awaited, g, {}) - {i};
    hide Pending, Members, Unawait, StatusOf;
  }

  lemma DropSheepSpares(s: State, i: Id, asFailure: bool, j: Id, m: Shelter, limbo: set<Id>, steady: bool)
    requires Inv(s, limbo, steady) && i in s.store && s.store[i].herd != i && Unready(s.store, i)
    requires Unready(s.store, s.store[i].herd) ==> !asFailure
    requires j in s.store && !Done(s.store, j) && i != j
    requires s.store[i].herd == j ==> StatusOf(s.store[j]) == Running
    ensures Spares(s, DropSheep(s, i, asFailure), j, m) && Apart(s, DropSheep(s, i, asFailure), j)
  {
    var t := Close(s, i, asFailure);
    assert DropSheep(s, i, asFailure) == Release(Forget(t, i), i);
    CloseEffect(s, i, asFailure);
    ClosedHerd(s, i, asFailure);
    hide *;
    InvShape(s, limbo, steady);
    InstFacts(s, i, limbo, steady);
    CloseCalmer(s, i, asFailure);
    CloseSheepInv(s, i, asFailure, limbo, steady);
    InvShape(t, limbo + {i}, steady);
    DataIs(s, i);
    RewriteSpares(s, t, i, Closed(s, i, asFailure), j, m);
    ReleaseSpares(t, i, j, m, limbo + {i}, steady);
    SparesTrans(s, t, DropSheep(s, i, asFailure), j, m);
  }

  lemma RewriteSpares(s: State, t: State, i: Id, inst: Inst, j: Id, m: Shelter)
    requires Rewritten(s, t, i, inst) && i != j && i in s.store && j in s.store && Calmer(s.store, t.store)
    ensures Spares(s, t, j, m) && Apart(s, t, j) && i in t.store && t.store[i] == inst
    ensures j in t.store && t.store[j] == s.store[j]
    ensures Done(t.store, j) == Done(s.store, j) && Unready(t.store, j) == Unready(s.store, j)
  {
    hide StatusOf, Calmer;
    SparesOf(s, t, j, m);
  }

  lemma {:induction false} DropSheepOfSpares(s: State, ids: seq<Id>, h: Id, j: Id, m: Shelter,
                                             limbo: set<Id>, steady: bool)
    requires Inv(s, limbo, steady) && AreSheep(s, ids, h)
    requires j in s.store && !Done(s.store, j) && s.store[j].herd != h && j != h
    ensures Spares(s, DropSheepOf(s, ids), j, m) && Apart(s, DropSheepOf(s, ids), j)
    decreases |ids|
  {
    hide *;
    if ids == [] {
      DropNobody(s);
      SparesSame(s, s, j, m);
    } else {
      var t := if Cancelable(s, ids[0]) then DropSheep(s, ids[0], false) else s;
      DropOneCases(s, ids);
      HeadSheep(s, ids, h);
      if Cancelable(s, ids[0]) {
        DropSheepInv(s, ids[0], false, limbo, steady);
        DropSheepSpares(s, ids[0], false, j, m, limbo, steady);
        SheepStay(s, t, ids[1..], h, {ids[0]});
      } else {
        SparesSame(s, s, j, m);
      }
      SparedFacts(s, t, j, m);
      DropSheepOfSpares(t, ids[1..], h, j, m, limbo, steady);
      SparesTrans(s, t, DropSheepOf(s, ids), j, m);
    }
  }

  lemma DropNobody(s: State)
    ensures DropSheepOf(s, []) == s
  {
  }

  lemma SparedFacts(s: State, t: State, j: Id, m: Shelter)
    requires Spares(s, t, j, m)
    ensures j in s.store && j in t.store && StatusOf(t.store[j]) == StatusOf(s.store[j])
    ensures t.store[j].herd == s.store[j].herd && t.store[j].task == s.store[j].task
    ensures Done(t.store, j) == Done(s.store, j) && Unready(t.store, j) == Unready(s.store, j)
    ensures s.store[j].herd in s.live ==> t.store[j].herd in t.live
    ensures Unready(s.store, j) ==> Get(s.awaited, j, {}) <= Get(t.awaited, j, {})
    ensures m == Unasked ==> Line(t.store, s.store[j].task) <= Line(s.store, s.store[j].task)
  {
    hide StatusOf, Line;
  }

  // ---------------------------------------------------------------------------------------------
  // Who is displaced
  // ---------------------------------------------------------------------------------------------

  /** Another instance, of a herd that the instance does not await. */
  ghost predicate Elsewhere(s: State, i: Id, j: Id) {
    i in s.store && j in s.store && i != j && (s.store[i].herd == j ==> StatusOf(s.store[j]) == Running)
  }

  lemma ElsewhereStays(s: State, t: State, ids: seq<Id>, j: Id, m: Shelter, except: set<Id>)
    requires Later(s, t, except) && Spares(s, t, j, m) && forall i <- ids :: Elsewhere(s, i, j)
    ensures forall i <- ids :: Elsewhere(t, i, j)
  {
    hide Guarded, StatusOf, Line;
    forall i <- ids ensures Elsewhere(t, i, j) {
      assert Elsewhere(s, i, j) && Evolves(i, s.store[i], t.store[i]);
    }
  }

  /** A planned or queued sheep of a herder is awaited. */
  lemma UnreadyIsAwaited(s: State, i: Id, limbo: set<Id>)
    requires Indexed(s, limbo) && Shape(s) && i in s.store && Unready(s.store, i)
    requires s.store[i].herd in s.live && s.store[i].herd != i
    ensures i in Get(s.awaited, s.store[i].herd, {})
  {
    assert IsHerder(s.store, s.store[i].herd);
    assert HerdIndexed(s, limbo, s.store[i].herd);
    hide Indexed;
  }

  lemma ArrivingElsewhere(s: State, i: Id, j: Id, m: Shelter, limbo: set<Id>, steady: bool)
    requires Herds(s, limbo, steady) && Guarded(s, i) && Sheltered(s, j, m) && i != j
    ensures Elsewhere(s, i, j)
  {
    InstFacts(s, j, limbo, steady);
    if s.store[i].herd == j && j in s.live {
      UnreadyIsAwaited(s, i, limbo);
    }
    hide Herds, Shape, Coherent, Deduped, NeverAsked;
  }

  lemma QueuedElsewhere(s: State, i: Id, j: Id, m: Shelter, limbo: set<Id>, steady: bool)
    requires Herds(s, limbo, steady) && i in s.store && StatusOf(s.store[i]) == Queued && i != j && Sheltered(s, j, m)
    ensures Elsewhere(s, i, j)
  {
    InstFacts(s, j, limbo, steady);
    if s.store[i].herd == j {
      SheepHasStartedHerder(s, i, limbo, steady);
      if j in s.live {
        UnreadyIsAwaited(s, i, limbo);
      }
    }
    hide Herds, Shape, Coherent, Deduped, NeverAsked;
  }

  lemma {:induction false} DistinctElems(s: seq<Id>)
    requires forall j, k :: 0 <= j < k < |s| ==> s[j] < s[k]
    ensures |Elems(s)| == |s|
  {
    if s == [] {
      assert Elems(s) == {};
    } else {
      DistinctElems(s[1..]);
      assert Elems(s) == Elems(s[1..]) + {s[0]};
      assert s[0] !in s[1..];
    }
  }

  lemma RivalsAreKin(s: State, i: Id)
    requires i in s.store
    ensures Elems(Ascending(Rivals(s, i), s.next)) <= Kin(s.store, s.store[i].task, s.store[i].criterion)
    ensures |Ascending(Rivals(s, i), s.next)| <= |Kin(s.store, s.store[i].task, s.store[i].criterion)|
  {
    hide StatusOf;
    var order := Ascending(Rivals(s, i), s.next);
    forall x <- Elems(order) ensures x in Kin(s.store, s.store[i].task, s.store[i].criterion) {
      var k :| 0 <= k < |order| && order[k] == x;
      assert x in Rivals(s, i);
    }
    DistinctElems(order);
    hide Kin, Rivals, Ascending;
    SmallerSet(Elems(order), Kin(s.store, s.store[i].task, s.store[i].criterion));
  }

  /** Within its limit, a task that refuses only drops the arriving instance. */
  lemma OnlyItself(order: seq<Id>, i: Id, max: nat)
    requires |order| <= max
    ensures forall x <- Surplus(order + [i], max, false) :: x == i
  {
    var all := order + [i];
    if |all| > max {
      assert all[max..] == [i];
      assert Reversed([i]) == [i];
    }
  }

  /** The one that is sheltered is not among those that an arriving instance displaces. */
  lemma NotDisplaced(s: State, i: Id, j: Id, m: Shelter, limbo: set<Id>, steady: bool)
    requires i in s.store && i != j && Sheltered(s, j, m) && Unforced(m, s) && 0 < MaxQueued(s, i)
    requires m == Unasked ==> s.store[i].task != s.store[j].task
    requires Inv(s, limbo, steady) && (m == Roomy ==> steady)
    ensures j !in Surplus(Duplicates(s, i), MaxQueued(s, i), KeepLast(s, i))
  {
    var surplus := Surplus(Duplicates(s, i), MaxQueued(s, i), KeepLast(s, i));
    assert Duplicates(s, i) == Ascending(Rivals(s, i), s.next) + [i];
    if j in surplus {
      hide *;
      SurplusAreDuplicates(Duplicates(s, i), MaxQueued(s, i), KeepLast(s, i));
      DisplacedIsRival(s, i, j);
      RivalsAreKin(s, i);
      if m == Roomy {
        ThereIsRoom(s, i, j, limbo);
        NobodyGoes(Ascending(Rivals(s, i), s.next), i, MaxQueued(s, i), KeepLast(s, i));
      } else {
        RivalIsLimited(s, i, j, m);
        WithinLimit(s, i);
        OnlyItself(Ascending(Rivals(s, i), s.next), i, MaxQueued(s, i));
      }
    }
  }

  lemma NobodyGoes(order: seq<Id>, i: Id, max: nat, keepLast: bool)
    requires |order| < max
    ensures Surplus(order + [i], max, keepLast) == []
  {
  }

  /** Below a limit higher than that on all queued instances. */
  lemma ThereIsRoom(s: State, i: Id, j: Id, limbo: set<Id>)
    requires Inv(s, limbo, true) && i in s.store && j in s.store && s.store[j].task == s.store[i].task
    requires StatusOf(s.store[j]) == Queued && Sheltered(s, j, Roomy)
    ensures |Kin(s.store, s.store[i].task, s.store[i].criterion)| < MaxQueued(s, i)
  {
    RoomyIs(s, i, j);
    InvShape(s, limbo, true);
    assert Bounded(s) by { hide Herds, Kin, Sheltered; }
    hide *;
    HerdsParts(s, limbo, true);
    QueueIsTallied(s, limbo);
    KinAreFew(s, s.store[i].task, s.store[i].criterion, limbo);
  }

  lemma RoomyIs(s: State, i: Id, j: Id)
    requires i in s.store && j in s.store && s.store[j].task == s.store[i].task
    requires StatusOf(s.store[j]) == Queued && Sheltered(s, j, Roomy)
    ensures s.cfg.maxQueued < MaxQueued(s, i)
  {
    hide Deduped, NeverAsked;
  }

  lemma QueueIsTallied(s: State, limbo: set<Id>)
    requires Shape(s) && Clean(s, limbo) && Bounded(s)
    ensures QueueSize(s) <= s.cfg.maxQueued
  {
    QueueSizeIsTally(s, limbo);
    hide Tally, QueueSize, Shape, Clean, NoForce;
  }

  lemma KinAreFew(s: State, task: TaskId, criterion: string, limbo: set<Id>)
    requires Clean(s, limbo) && Shape(s)
    ensures |Kin(s.store, task, criterion)| <= QueueSize(s)
  {
    var queued := set j | j in s.live && j in s.store && StatusAt(s, j) == Queued;
    assert Kin(s.store, task, criterion) <= queued by { hide Shape; }
    SmallerSet(Kin(s.store, task, criterion), queued);
    hide *;
  }

  lemma DisplacedIsRival(s: State, i: Id, j: Id)
    requires i in s.store && j != i && j in Duplicates(s, i)
    ensures j in s.store && StatusOf(s.store[j]) == Queued && s.store[j].task == s.store[i].task
  {
    var order := Ascending(Rivals(s, i), s.next);
    assert j in order;
    var k :| 0 <= k < |order| && order[k] == j;
    assert j in Rivals(s, i);
    hide StatusOf;
  }

  lemma RivalIsLimited(s: State, i: Id, j: Id, m: Shelter)
    requires i in s.store && j in s.store && Sheltered(s, j, m) && StatusOf(s.store[j]) == Queued
    requires s.store[j].task == s.store[i].task && 0 < MaxQueued(s, i) && Unforced(m, s)
    requires (m == Unasked ==> s.store[i].task != s.store[j].task) && m != Roomy
    ensures Deduped(s, s.store[i].task, false) && NoForce(s) && !KeepLast(s, i)
  {
    hide Kin, NoForce, NeverAsked;
  }

  lemma WithinLimit(s: State, i: Id)
    requires i in s.store && Deduped(s, s.store[i].task, false) && NoForce(s) && 0 < MaxQueued(s, i)
    ensures |Kin(s.store, s.store[i].task, s.store[i].criterion)| <= MaxQueued(s, i)
  {
    hide Kin, NoForce;
  }

  lemma SurplusElsewhere(s: State, i: Id, j: Id, m: Shelter, limbo: set<Id>, steady: bool)
    requires m == Roomy ==> steady
    requires Inv(s, limbo, steady) && Guarded(s, i) && i != j && Sheltered(s, j, m) && Unforced(m, s)
    requires 0 < MaxQueued(s, i) && (m == Unasked ==> i in s.store && s.store[i].task != s.store[j].task)
    ensures forall x <- Surplus(Duplicates(s, i), MaxQueued(s, i), KeepLast(s, i)) :: Elsewhere(s, x, j)
  {
    hide *;
    InvShape(s, limbo, steady);
    PlannedIsUnready(s, i);
    ShelteredFacts(s, j, m);
    NotDisplaced(s, i, j, m, limbo, steady);
    DuplicatesAreKnown(s, i);
    SurplusAreDuplicates(Duplicates(s, i), MaxQueued(s, i), KeepLast(s, i));
    ArrivingElsewhere(s, i, j, m, limbo, steady);
    forall x <- Surplus(Duplicates(s, i), MaxQueued(s, i), KeepLast(s, i)) ensures Elsewhere(s, x, j) {
      if x != i {
        QueuedElsewhere(s, x, j, m, limbo, steady);
      }
    }
  }

  /** A sheltered instance is not a sheep of a herder that has not started. */
  lemma NotItsSheep(s: State, h: Id, j: Id, m: Shelter, limbo: set<Id>, steady: bool)
    requires Herds(s, limbo, steady) && IsHerder(s.store, h) && Unready(s.store, h) && Sheltered(s, j, m) && j != h
    ensures s.store[j].herd != h
  {
    InstFacts(s, h, limbo, steady);
    hide Shape, Clean, Indexed, Judged, Coherent, Deduped, NeverAsked;
  }

  // ---------------------------------------------------------------------------------------------
  // Steps that trigger actions
  // ---------------------------------------------------------------------------------------------

  lemma NeverAskedRest(s: State, j: Id, m: Shelter)
    requires s.script != [] && Sheltered(s, j, m) && m == Unasked
    ensures forall r <- s.script[0] :: r.task != s.store[j].task
    ensures NeverAsked(s.script[1..], s.store[j].task)
  {
    assert s.script[0] in s.script && forall reqs <- s.script[1..] :: reqs in s.script;
    hide Guarded, StatusOf;
  }

  lemma {:induction false} PlanAllSpares(s: State, reqs: seq<Request>, i: Id, j: Id, m: Shelter,
                                         limbo: set<Id>, steady: bool)
    requires m == Roomy ==> steady
    requires Inv(s, limbo, steady) && Settled(s, limbo) && i in s.store && Sheltered(s, j, m)
    requires Unforced(m, PlanAll(s, reqs, i))
    requires m == Unasked ==> forall r <- reqs :: r.task != s.store[j].task
    requires StatusOf(s.store[j]) == Waiting ==> s.store[i].herd != j
    ensures Spares(s, PlanAll(s, reqs, i), j, m) && Sheltered(PlanAll(s, reqs, i), j, m)
    ensures s.store[i].herd != j ==> Apart(s, PlanAll(s, reqs, i), j)
    decreases |s.script|, 7, |reqs|
  {
    hide *;
    PlanAllCases(s, reqs, i);
    ShelteredFacts(s, j, m);
    if reqs == [] {
      SparesSame(s, s, j, m);
    } else {
      var herd := HerdFor(s, reqs[0], i);
      var t := Plan(s, reqs[0], herd, i);
      var u := PlanAll(t, reqs[1..], i);
      InvShape(s, limbo, steady);
      PlanHerd(s, reqs[0], i, limbo, steady);
      HerdForIs(s, reqs[0], i, j);
      PlanKeeps(s, reqs[0], herd, i, limbo, steady);
      StillThere(s, t, {}, i);
      StillThere(s, t, {}, j);
      SettledStays(s, t, limbo, {});
      PlanAllKeeps(t, reqs[1..], i, limbo, steady);
      UnforcedBefore(t, u, {}, m);
      assert reqs[0] in reqs && forall r <- reqs[1..] :: r in reqs;
      PlanSpares(s, reqs[0], herd, i, j, m, limbo, steady);
      SparedFacts(s, t, j, m);
      PlanAllSpares(t, reqs[1..], i, j, m, limbo, steady);
      SparesTrans(s, t, u, j, m);
    }
  }

  lemma HerdForIs(s: State, req: Request, i: Id, j: Id)
    requires i in s.store && Shape(s) && j in s.store
    ensures s.store[i].herd != j ==> HerdFor(s, req, i) != j
  {
  }

  lemma {:induction false} TriggerSpares(s: State, i: Id, j: Id, m: Shelter, limbo: set<Id>, steady: bool)
    requires m == Roomy ==> steady
    requires Inv(s, limbo, steady) && Settled(s, limbo) && i in s.store && Sheltered(s, j, m)
    requires Unforced(m, Trigger(s, i)) && (StatusOf(s.store[j]) == Waiting ==> s.store[i].herd != j)
    ensures Spares(s, Trigger(s, i), j, m) && Sheltered(Trigger(s, i), j, m)
    ensures s.store[i].herd != j ==> Apart(s, Trigger(s, i), j)
    decreases |s.script|, 0, 0
  {
    hide *;
    TriggerCases(s, i);
    ShelteredFacts(s, j, m);
    if s.script == [] {
      SparesSame(s, s, j, m);
    } else {
      var t := s.(script := s.script[1..]);
      ScriptIsAside(s, s.script[1..], limbo, steady);
      SettledStays(s, t, limbo, {});
      SparesSame(s, t, j, m);
      if m == Unasked {
        NeverAskedRest(s, j, m);
      }
      if m == Refusing {
        SameDeduped(s, t, s.store[j].task, false);
      }
      StillSheltered(s, t, j, m, {});
      PlanAllSpares(t, s.script[0], i, j, m, limbo, steady);
      SparesTrans(s, t, Trigger(s, i), j, m);
    }
  }

  lemma {:induction false} PlanSpares(s: State, req: Request, herd: Id, parent: Id, j: Id, m: Shelter,
                                      limbo: set<Id>, steady: bool)
    requires m == Roomy ==> steady
    requires Inv(s, limbo, steady) && Settled(s, limbo) && (herd == 0 || IsHerder(s.store, herd)) && Sheltered(s, j, m)
    requires Unforced(m, Plan(s, req, herd, parent)) && (m == Unasked ==> req.task != s.store[j].task)
    requires StatusOf(s.store[j]) == Waiting ==> herd != j
    ensures Spares(s, Plan(s, req, herd, parent), j, m) && Sheltered(Plan(s, req, herd, parent), j, m)
    ensures herd != j ==> Apart(s, Plan(s, req, herd, parent), j)
    decreases |s.script|, 6, 0
  {
    hide *;
    PlanCases(s, req, herd, parent);
    ShelteredFacts(s, j, m);
    if req.task !in s.cfg.tasks || req.task !in s.enabled {
      SparesSame(s, s, j, m);
    } else {
      var t := Insert(s, req, herd, parent);
      var u := Trigger(t, s.next);
      InvShape(s, limbo, steady);
      NewIsGuarded(s, req, herd, parent);
      InsertInv(s, req, herd, parent, limbo, steady);
      InsertLater(s, req, herd, parent);
      SettledStays(s, t, limbo, {});
      InsertSpares(s, req, herd, parent, j, m);
      InsertTask(s, req, herd, parent);
      InsertDeduped(s, req, herd, parent, j, m);
      SparedFacts(s, t, j, m);
      StillSheltered(s, t, j, m, {});
      TriggerKeeps(t, s.next, limbo, steady);
      if herd in s.live && herd in s.store {
        SoilIsAside(u, herd, limbo, steady);
        UnforcedBefore(u, Soil(u, herd), {}, m);
        TriggerSpares(t, s.next, j, m, limbo, steady);
        SoilSheltered(u, herd, j, m, limbo, steady);
        SparesTrans(s, t, u, j, m);
        SparesTrans(s, u, Soil(u, herd), j, m);
      } else {
        LiveHerderIsKnown(s, herd);
        InvShape(t, limbo, steady);
        GuardedStays(t, u, {}, s.next);
        EnqueueKeeps(u, s.next, limbo, steady);
        UnforcedBefore(u, Enqueue(u, s.next), {s.next}, m);
        TriggerSpares(t, s.next, j, m, limbo, steady);
        SettledStays(t, u, limbo, {});
        SameMax(t, u, {}, s.next);
        SparedFacts(t, u, j, m);
        EnqueueSpares(u, s.next, j, m, limbo, steady);
        SparesTrans(s, t, u, j, m);
        SparesTrans(s, u, Enqueue(u, s.next), j, m);
      }
    }
  }

  lemma InsertTask(s: State, req: Request, herd: Id, parent: Id)
    requires Shape(s) && (herd == 0 || IsHerder(s.store, herd))
    ensures var t := Insert(s, req, herd, parent);
            s.next in t.store && t.store[s.next].task == req.task && t.script == s.script && t.cfg == s.cfg
  {
    InsertEffect(s, req, herd, parent);
    hide Insert, StatusOf, SameButHerded;
  }

  lemma InsertDeduped(s: State, req: Request, herd: Id, parent: Id, j: Id, m: Shelter)
    requires Shape(s) && (herd == 0 || IsHerder(s.store, herd)) && Sheltered(s, j, m)
    ensures m == Refusing ==> Deduped(Insert(s, req, herd, parent), s.store[j].task, false)
  {
    hide *;
    ShelteredFacts(s, j, m);
    InsertCalmer(s, req, herd, parent);
    InsertTask(s, req, herd, parent);
    if m == Refusing {
      CalmerDeduped(s, Insert(s, req, herd, parent), s.store[j].task, false);
    }
  }

  lemma SoilSheltered(s: State, h: Id, j: Id, m: Shelter, limbo: set<Id>, steady: bool)
    requires Inv(s, limbo, steady) && Sheltered(s, j, m)
    ensures Sheltered(Soil(s, h), j, m) && Spares(s, Soil(s, h), j, m) && Apart(s, Soil(s, h), j)
  {
    hide *;
    InvShape(s, limbo, steady);
    ShelteredFacts(s, j, m);
    SoilSpares(s, h, j, m);
    SoilIsAside(s, h, limbo, steady);
    if m == Refusing {
      SoilDeduped(s, h, s.store[j].task, false);
    }
    StillSheltered(s, Soil(s, h), j, m, {});
  }

  lemma {:induction false} EnqueueSpares(s: State, i: Id, j: Id, m: Shelter, limbo: set<Id>, steady: bool)
    requires m == Roomy ==> steady
    requires Inv(s, limbo, steady) && Settled(s, limbo) && Guarded(s, i) && i != j && Sheltered(s, j, m)
    requires Unforced(m, Enqueue(s, i)) && (m == Unasked ==> i in s.store && s.store[i].task != s.store[j].task)
    ensures Spares(s, Enqueue(s, i), j, m) && Sheltered(Enqueue(s, i), j, m) && Apart(s, Enqueue(s, i), j)
    decreases |s.script|, 5, 0
  {
    hide *;
    EnqueueCases(s, i);
    InvShape(s, limbo, steady);
    PlannedIsUnready(s, i);
    ShelteredFacts(s, j, m);
    EnqueueKeeps(s, i, limbo, steady);
    if m == Refusing {
      EnqueueDeduped(s, i, limbo, steady, s.store[j].task, false);
    }
    UnforcedBefore(s, Enqueue(s, i), {i}, m);
    ArrivingElsewhere(s, i, j, m, limbo, steady);
    if Data(s, i).force || (Data(s, i).task in s.enabled && MaxQueued(s, i) == 0) {
      AdmitSpares(s, i, j, m);
      StillSheltered(s, Admit(s, i), j, m, {i});
    } else if Data(s, i).task !in s.enabled {
      CancelSpares(s, i, j, m, limbo, steady);
    } else {
      var surplus := Surplus(Duplicates(s, i), MaxQueued(s, i), KeepLast(s, i));
      var except := if i in surplus then {i} else {};
      var t := CancelAll(s, surplus);
      SurplusCancels(s, i);
      SurplusElsewhere(s, i, j, m, limbo, steady);
      CancelAllKeeps(s, surplus, except, limbo, steady);
      if i in surplus {
        CancelAllSpares(s, surplus, except, j, m, limbo, steady);
      } else {
        InvShape(t, limbo, steady);
        GuardedStays(s, t, {}, i);
        AdmitInv(t, i, limbo, steady);
        UnforcedBefore(t, Admit(t, i), {i}, m);
        CancelAllSpares(s, surplus, except, j, m, limbo, steady);
        StillThere(s, t, {}, i);
        SameMax(s, t, {}, i);
        SparedFacts(s, t, j, m);
        ShelteredFacts(t, j, m);
        AdmitSpares(t, i, j, m);
        StillSheltered(t, Admit(t, i), j, m, {i});
        SparesTrans(s, t, Admit(t, i), j, m);
      }
    }
  }

  lemma {:induction false} CancelAllSpares(s: State, ids: seq<Id>, except: set<Id>, j: Id, m: Shelter,
                                           limbo: set<Id>, steady: bool)
    requires m == Roomy ==> steady
    requires Inv(s, limbo, steady) && Settled(s, limbo) && Cancels(s, ids, except) && Sheltered(s, j, m)
    requires j !in except && (forall i <- ids :: Elsewhere(s, i, j)) && Unforced(m, CancelAll(s, ids))
    ensures Spares(s, CancelAll(s, ids), j, m) && Sheltered(CancelAll(s, ids), j, m) && Apart(s, CancelAll(s, ids), j)
    decreases |s.script|, 4, |ids|
  {
    hide *;
    CancelAllCases(s, ids);
    ShelteredFacts(s, j, m);
    if ids == [] {
      SparesSame(s, s, j, m);
    } else {
      var t := Cancel(s, ids[0]);
      var u := CancelAll(t, ids[1..]);
      FirstCancels(s, ids, except);
      CancelKeeps(s, ids[0], limbo, steady);
      CancelsStays(s, t, ids, except, {ids[0]});
      SettledStays(s, t, limbo, {ids[0]});
      CancelAllKeeps(t, ids[1..], except, limbo, steady);
      UnforcedBefore(t, u, except, m);
      assert ids[0] in ids && forall i <- ids[1..] :: i in ids;
      CancelSpares(s, ids[0], j, m, limbo, steady);
      ElsewhereStays(s, t, ids[1..], j, m, {ids[0]});
      CancelAllSpares(t, ids[1..], except, j, m, limbo, steady);
      SparesTrans(s, t, u, j, m);
    }
  }

  lemma ElsewhereFacts(s: State, i: Id, j: Id)
    requires Elsewhere(s, i, j)
    ensures i in s.store && j in s.store && i != j && (s.store[i].herd == j ==> StatusOf(s.store[j]) == Running)
  {
  }

  lemma {:induction false} CancelSpares(s: State, i: Id, j: Id, m: Shelter, limbo: set<Id>, steady: bool)
    requires m == Roomy ==> steady
    requires Inv(s, limbo, steady) && Settled(s, limbo) && Elsewhere(s, i, j) && Sheltered(s, j, m)
    requires Unforced(m, Cancel(s, i))
    ensures Spares(s, Cancel(s, i), j, m) && Sheltered(Cancel(s, i), j, m) && Apart(s, Cancel(s, i), j)
    decreases |s.script|, 3, 0
  {
    hide *;
    ElsewhereFacts(s, i, j);
    CancelCases(s, i);
    InvShape(s, limbo, steady);
    ShelteredFacts(s, j, m);
    CancelKeeps(s, i, limbo, steady);
    if m == Refusing {
      CancelDeduped(s, i, limbo, steady, s.store[j].task, false);
    }
    if !Unready(s.store, i) {
      SparesSame(s, s, j, m);
    } else if s.store[i].herd != i {
      DropSheepSpares(s, i, false, j, m, limbo, steady);
      StillSheltered(s, Cancel(s, i), j, m, {i});
    } else {
      var t := CancelHerd(s, i);
      HerderOf(s.store, i);
      InstFacts(s, i, limbo, steady);
      NotItsSheep(s, i, j, m, limbo, steady);
      CancelHerdInv(s, i, limbo, steady);
      CancelHerdEmpties(s, i, limbo, steady);
      CancelHerdIs(s, i);
      SheepAreSheep(s, i, limbo, steady);
      DropSheepOfSpares(s, Ascending(Sheep(s, i), s.next), i, j, m, limbo, steady);
      SettledStays(s, t, limbo, {});
      SameConfig(s, t, {});
      if m == Refusing {
        CalmerDeduped(s, t, s.store[j].task, false);
      }
      StillSheltered(s, t, j, m, {});
      SparedFacts(s, t, j, m);
      UnreadyIsStoppable(s, t, i, limbo);
      StopHerderSpares(t, i, false, j, m, limbo, steady);
      SparesTrans(s, t, Cancel(s, i), j, m);
    }
  }

  lemma {:induction false} StopHerderSpares(s: State, h: Id, asFailure: bool, j: Id, m: Shelter,
                                            limbo: set<Id>, steady: bool)
    requires m == Roomy ==> steady
    requires Inv(s, limbo, steady) && Settled(s, limbo) && Stoppable(s, h, limbo) && Sheltered(s, j, m)
    requires h != j && s.store[j].herd != h && Unforced(m, StopHerder(s, h, asFailure))
    ensures Spares(s, StopHerder(s, h, asFailure), j, m) && Sheltered(StopHerder(s, h, asFailure), j, m)
    ensures Apart(s, StopHerder(s, h, asFailure), j)
    decreases |s.script|, 2, 0
  {
    hide *;
    StoppableFacts(s, h, limbo);
    StopHerderCases(s, h, asFailure);
    ShelteredFacts(s, j, m);
    WatchIsAside(s, h, limbo, steady);
    WatchIndexes(s, h);
    var w := Watch(s, h);
    var t := Trigger(w, h);
    var u := StopHerder(s, h, asFailure);
    TriggerKeeps(w, h, limbo, steady);
    InvShape(s, limbo, steady);
    InvShape(w, limbo, steady);
    InvShape(t, limbo, steady);
    LaterThen(s, w, t, {});
    NotRunning(s, t, h, limbo, steady);
    FinishHerderLater(t, h, asFailure);
    SoilIsAside(t, h, limbo, steady);
    LaterWeaken(t, Soil(t, h), {}, {h});
    UnforcedBefore(t, u, {h}, m);
    SettledStays(s, w, limbo, {});
    SparesSame(s, w, j, m);
    if m == Refusing {
      WatchDeduped(s, h, s.store[j].task, false);
    }
    StillSheltered(s, w, j, m, {});
    HerderIn(s.store, h);
    TriggerSpares(w, h, j, m, limbo, steady);
    SparesTrans(s, w, t, j, m);
    SparedFacts(s, t, j, m);
    ShelteredFacts(t, j, m);
    if m == Refusing {
      StopHerderDeduped(s, h, asFailure, limbo, steady, s.store[j].task, false);
    }
    SoilSpares(t, h, j, m);
    HerdsParts(t, limbo, steady);
    FinishHerderSpares(t, h, asFailure, j, m, limbo);
    StillSheltered(t, u, j, m, {h});
    SparesTrans(s, t, u, j, m);
  }

  lemma WatchIndexes(s: State, h: Id)
    ensures Watch(s, h).store == s.store && Watch(s, h).live == s.live && Watch(s, h).awaited == s.awaited
    ensures Watch(s, h).script == s.script && Watch(s, h).cfg == s.cfg && Watch(s, h).enabled == s.enabled
    ensures Watch(s, h).again == s.again && Watch(s, h).herds == s.herds
  {
    hide Data;
  }
}
