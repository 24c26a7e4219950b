/** The invariants over the mutually recursive steps of the scheduler: planning triggers actions,
    which plan, queue and cancel instances, which triggers actions. */
module SchedulerSteps {
  import opened TaskStatus
  import opened Totals
  import opened SchedulerModel
  import opened SchedulerInvariants
  import opened SchedulerHerds
  import opened SchedulerBooks
  import C = Conditions

  ghost predicate Inv(s: State, limbo: set<Id>, steady: bool) {
    Herds(s, limbo, steady) && Books(s, steady)
  }

  lemma InstFacts(s: State, i: Id, limbo: set<Id>, steady: bool)
    requires Herds(s, limbo, steady) && i in s.store
    ensures Shape(s) && Coherent(s.store[i]) && IsHerder(s.store, s.store[i].herd) && s.store[i].herd in s.store
    ensures !Done(s.store, i) ==> i in s.live
    ensures Unready(s.store, i) ==> i !in limbo && !s.store[i].started && i in s.live
    ensures StatusOf(s.store[i]) == Waiting ==> s.store[i].started && i in s.live
  {
    hide Indexed, Herding, Judged;
  }

  // ---------------------------------------------------------------------------------------------
  // What later states keep of earlier ones
  // ---------------------------------------------------------------------------------------------

  ghost predicate Evolves(i: Id, a: Inst, b: Inst) {
    && b.herd == a.herd && b.task == a.task && b.force == a.force && b.criterion == a.criterion
    && b.queuewhen == a.queuewhen && b.cancelwhen == a.cancelwhen
    && (Started(StatusOf(a)) ==> Started(StatusOf(b)))
    && (StatusOf(b) == Planned ==> StatusOf(a) == Planned)
    && (a.herd != i ==> CanBecome(StatusOf(a), StatusOf(b)))
    && (a.started ==> b.started && b.target == a.target)
    && (a.stopped ==> b.stopped && b.reported == a.reported)
  }

  lemma EvolvesTrans(i: Id, a: Inst, b: Inst, c: Inst)
    requires Evolves(i, a, b) && Evolves(i, b, c)
    ensures Evolves(i, a, c)
  {
    hide StatusOf;
  }

  /** A planned instance nothing but its own enqueueing or cancellation changes: its herder is
      itself, has started, or is gone. */
  ghost predicate Guarded(s: State, i: Id) {
    && i in s.store && StatusOf(s.store[i]) == Planned
    && (var h := s.store[i].herd;
        h == i || h !in s.live || (h in s.store && Started(StatusOf(s.store[h]))))
  }

  ghost predicate SameSetting(s: State, t: State) {
    && t.cfg == s.cfg && t.enabled == s.enabled && t.up == s.up && t.order == s.order
    && t.busy == s.busy && t.idle == s.idle && t.made == s.made && s.next <= t.next
  }

  /** The ids of new instances come after those of all known ones. */
  ghost predicate OnlyNewIds(s: State, t: State) {
    s.next <= t.next && forall i <- t.store :: i in s.store || s.next <= i
  }

  ghost predicate Later(s: State, t: State, except: set<Id>) {
    && SameSetting(s, t) && OnlyNewIds(s, t)
    && (forall i <- s.store :: i in t.store && Evolves(i, s.store[i], t.store[i]))
    && (forall i <- s.store :: i !in s.live ==> i !in t.live)
    && (forall i <- s.store :: Guarded(s, i) && i !in except ==> StatusOf(t.store[i]) == Planned)
  }

  lemma GuardedStays(s: State, t: State, except: set<Id>, i: Id)
    requires Shape(s) && Later(s, t, except) && Guarded(s, i) && i !in except
    ensures Guarded(t, i)
  {
    var h := s.store[i].herd;
    assert i in s.store && h in s.store;
    assert Evolves(i, s.store[i], t.store[i]) && Evolves(h, s.store[h], t.store[h]);
    hide StatusOf;
  }

  lemma LaterTrans(s: State, t: State, u: State, except: set<Id>, more: set<Id>)
    requires Shape(s) && Later(s, t, except) && Later(t, u, more)
    ensures Later(s, u, except + more)
  {
    hide StatusOf, Guarded, Shape;
    forall i <- s.store ensures i in u.store && Evolves(i, s.store[i], u.store[i]) {
      assert i in t.store;
      EvolvesTrans(i, s.store[i], t.store[i], u.store[i]);
    }
    forall i <- s.store ensures i !in s.live ==> i !in u.live {
      assert i in t.store;
    }
    forall i <- s.store | Guarded(s, i) && i !in except + more ensures StatusOf(u.store[i]) == Planned {
      GuardedStays(s, t, except, i);
    }
  }

  lemma LaterThen(s: State, t: State, u: State, except: set<Id>)
    requires Shape(s) && Later(s, t, except) && Later(t, u, {})
    ensures Later(s, u, except)
  {
    hide *;
    LaterTrans(s, t, u, except, {});
    assert except + {} == except;
  }

  lemma AndLater(s: State, t: State, u: State, except: set<Id>)
    requires Shape(s) && Later(s, t, {}) && Later(t, u, except)
    ensures Later(s, u, except)
  {
    hide *;
    LaterTrans(s, t, u, {}, except);
    assert {} + except == except;
  }

  /** Nothing happened to the instances. */
  lemma LaterSame(s: State, t: State)
    requires SameSetting(s, t) && t.store == s.store && t.live <= s.live
    ensures Later(s, t, {})
  {
    forall i <- s.store ensures Evolves(i, s.store[i], t.store[i]) {
    }
    hide Evolves, StatusOf;
  }

  /** One instance was rewritten. */
  lemma LaterPut(s: State, t: State, i: Id, inst: Inst)
    requires SameSetting(s, t) && i in s.store && t.store == s.store[i := inst] && t.live <= s.live
    requires Evolves(i, s.store[i], inst)
    ensures Later(s, t, {i})
    ensures StatusOf(s.store[i]) != Planned ==> Later(s, t, {})
  {
    forall j <- s.store ensures Evolves(j, s.store[j], t.store[j]) {
    }
    hide Evolves, StatusOf;
  }

  lemma LaterWeaken(s: State, t: State, except: set<Id>, more: set<Id>)
    requires Later(s, t, except) && except <= more
    ensures Later(s, t, more)
  {
    hide StatusOf, Guarded, Evolves;
  }

  // ---------------------------------------------------------------------------------------------
  // Steps that call no action
  // ---------------------------------------------------------------------------------------------

  lemma CloseSetting(s: State, i: Id, asFailure: bool)
    ensures SameSetting(s, Close(s, i, asFailure))
  {
    hide Closed, GiveBack;
    GiveBackEffect(s, i);
  }

  lemma ForgetSetting(s: State, i: Id)
    ensures SameSetting(s, Forget(s, i)) && Forget(s, i).store == s.store && Forget(s, i).live <= s.live
    ensures SameBooks(s, Forget(s, i))
  {
    hide StatusOf, Sheep, Data;
    var t := Forget(s, i);
    ForgetChanges(s, i);
    hide Forget;
  }

  lemma ForgetChanges(s: State, i: Id)
    ensures var t := Forget(s, i);
            t == s.(live := t.live, awaited := t.awaited, herds := t.herds) && t.live <= s.live
  {
    hide StatusOf, Sheep;
    var h := Data(s, i).herd;
    if h == i {
      var gone := set j | j in Sheep(s, i) && Finished(StatusAt(s, j));
      assert Forget(s, i) == s.(live := s.live - gone - {i}, awaited := s.awaited - {i}, herds := s.herds - {i});
      hide Forget;
    } else if h !in s.live {
      assert Forget(s, i) == s.(live := s.live - {i});
      hide Forget;
    }
  }

  lemma FinishHerderSetting(s: State, h: Id, asFailure: bool)
    ensures SameSetting(s, FinishHerder(s, h, asFailure))
  {
    hide Close, Forget;
    CloseSetting(s, h, asFailure);
    ForgetSetting(Close(s, h, asFailure), h);
  }

  /** What a new instance changes in the store. */
  lemma InsertEffect(s: State, req: Request, herd: Id, parent: Id)
    requires Shape(s) && (herd == 0 || IsHerder(s.store, herd))
    ensures var t := Insert(s, req, herd, parent);
            && SameSetting(s, t) && t.live == s.live + {s.next} && t.again == s.again
            && t.store.Keys == s.store.Keys + {s.next} && s.next in t.store && s.next !in s.store
            && t.store[s.next].task == req.task && StatusOf(t.store[s.next]) == Planned
            && forall i <- s.store :: i in t.store && SameButHerded(s.store[i], t.store[i])
  {
    var herded := herd in s.live && herd in s.store;
    var inst := NewInst(s.next, req, herd, herded, parent);
    NewInstIsNewborn(s, req, herd, parent);
    EnterEffect(s, inst, herd, herded);
    assert Insert(s, req, herd, parent) == Enter(s, inst, herd, herded);
    assert inst.task == req.task && StatusOf(inst) == Planned;
    EnterSetting(s, inst, herd, herded);
    hide Insert, Enter, NewInst, Newborn, Coherent, StatusOf, IsHerder, SameSetting;
  }

  lemma EnterSetting(s: State, inst: Inst, herd: Id, herded: bool)
    ensures SameSetting(s, Enter(s, inst, herd, herded)) && Enter(s, inst, herd, herded).again == s.again
  {
    hide Get, Data;
  }

  /** A herder knows one more sheep, or nothing changed. */
  ghost predicate SameButHerded(a: Inst, b: Inst) {
    && b == a.(herded := b.herded) && StatusOf(b) == StatusOf(a)
    && b.task == a.task && b.criterion == a.criterion && b.force == a.force
  }

  lemma SameEvolves(i: Id, a: Inst, b: Inst)
    requires SameButHerded(a, b)
    ensures Evolves(i, a, b) && StatusOf(b) == StatusOf(a)
  {
    AnyBecomesItself(StatusOf(a));
    hide StatusOf, CanBecome;
  }

  lemma InsertLater(s: State, req: Request, herd: Id, parent: Id)
    requires Shape(s) && (herd == 0 || IsHerder(s.store, herd))
    ensures Later(s, Insert(s, req, herd, parent), {})
  {
    InsertEffect(s, req, herd, parent);
    hide SameButHerded, StatusOf, SameSetting, Insert, Evolves, IsHerder, Shape;
    var t := Insert(s, req, herd, parent);
    forall i <- s.store ensures Evolves(i, s.store[i], t.store[i]) && StatusOf(t.store[i]) == StatusOf(s.store[i]) {
      SameEvolves(i, s.store[i], t.store[i]);
    }
  }

  lemma AnyBecomesItself(a: Status)
    ensures CanBecome(a, a)
  {
  }

  lemma InsertInv(s: State, req: Request, herd: Id, parent: Id, limbo: set<Id>, steady: bool)
    requires Inv(s, limbo, steady) && (herd == 0 || IsHerder(s.store, herd))
    ensures Inv(Insert(s, req, herd, parent), limbo, steady)
  {
    assert Shape(s);
    hide Herds, Books, Insert, Shape;
    InsertKeeps(s, req, herd, parent, limbo, steady);
    InsertBooks(s, req, herd, parent, steady);
  }

  /** Bookkeeping that touches neither herds nor accounts. */
  lemma SameInv(s: State, t: State, limbo: set<Id>, steady: bool)
    requires Inv(s, limbo, steady) && SameHerds(s, t) && SameBooks(s, t)
    ensures Inv(t, limbo, steady)
  {
    hide Herds, Books, SameHerds, SameBooks;
    SameHerdsKeeps(s, t, limbo, steady);
    SameBooksKeeps(s, t, steady);
  }

  /** What a herder may be when it is closed: it does not run. */
  ghost predicate Closable(s: State, h: Id) {
    h in s.store &&
    if h in s.live then Unready(s.store, h) || StatusOf(s.store[h]) == Waiting else Done(s.store, h)
  }

  lemma FinishHerderInv(s: State, h: Id, asFailure: bool, limbo: set<Id>, steady: bool)
    requires Shape(s) && Clean(s, limbo) && Indexed(s, limbo) && Herding(s, limbo + {h})
    requires (steady ==> Judged(s)) && Books(s, steady) && IsHerder(s.store, h) && Closable(s, h)
    requires h !in s.live || Get(s.awaited, h, {}) == {} || PolicyOf(s, s.store[h].task) == NoWait
    ensures Inv(FinishHerder(s, h, asFailure), limbo, steady)
    ensures Inv(FinishHerder(s, h, asFailure), limbo - {h}, steady)
  {
    FinishHerderKeeps(s, h, asFailure, limbo, steady);
    assert Coherent(s.store[h]);
    CloseBooks(s, h, asFailure, steady);
    hide Herds, Books, Close, Forget, Shape, Clean, Indexed, Herding, Judged, Coherent, Closable;
    ForgetSetting(Close(s, h, asFailure), h);
    SameBooksKeeps(Close(s, h, asFailure), FinishHerder(s, h, asFailure), steady);
  }

  lemma FinishHerderLater(s: State, h: Id, asFailure: bool)
    requires IsHerder(s.store, h) && Coherent(s.store[h])
    ensures Later(s, FinishHerder(s, h, asFailure), {h})
    ensures StatusOf(s.store[h]) != Planned ==> Later(s, FinishHerder(s, h, asFailure), {})
  {
    ClosedEffect(s, h, asFailure);
    var gone := FinishHerderEffect(s, h, asFailure);
    FinishHerderSetting(s, h, asFailure);
    hide FinishHerder, Closed, Coherent;
    assert Evolves(h, s.store[h], Closed(s, h, asFailure));
    hide Evolves, StatusOf;
    LaterPut(s, FinishHerder(s, h, asFailure), h, Closed(s, h, asFailure));
  }

  lemma CloseSheepInv(s: State, i: Id, asFailure: bool, limbo: set<Id>, steady: bool)
    requires Inv(s, limbo, steady) && i in s.store && s.store[i].herd != i
    requires Unready(s.store, i) || StatusOf(s.store[i]) == Waiting
    requires Unready(s.store, s.store[i].herd) ==> !asFailure && !s.store[i].started
    ensures Inv(Close(s, i, asFailure), limbo + {i}, steady)
    ensures InLimbo(Close(s, i, asFailure), i, limbo + {i})
    ensures Later(s, Close(s, i, asFailure), {i})
  {
    hide Herds, Books, Close, StatusOf, Coherent, InLimbo, Later;
    InstFacts(s, i, limbo, steady);
    CloseSheepKeeps(s, i, asFailure, limbo, steady);
    CloseBooks(s, i, asFailure, steady);
    CloseSheepLater(s, i, asFailure);
    SheepInLimbo(s, i, asFailure, limbo);
  }

  lemma SheepInLimbo(s: State, i: Id, asFailure: bool, limbo: set<Id>)
    requires i in s.store && s.store[i].herd != i && Coherent(s.store[i])
    ensures InLimbo(Close(s, i, asFailure), i, limbo + {i})
  {
    CloseEffect(s, i, asFailure);
    ClosedEffect(s, i, asFailure);
    hide Close, Closed, StatusOf, Coherent;
  }

  lemma CloseSheepLater(s: State, i: Id, asFailure: bool)
    requires i in s.store && Coherent(s.store[i])
    requires Unready(s.store, i) || StatusOf(s.store[i]) == Waiting
    ensures Later(s, Close(s, i, asFailure), {i})
  {
    CloseEffect(s, i, asFailure);
    ClosedEffect(s, i, asFailure);
    CloseSetting(s, i, asFailure);
    hide Close, Closed, Coherent;
    assert Evolves(i, s.store[i], Closed(s, i, asFailure));
    hide Evolves;
    LaterPut(s, Close(s, i, asFailure), i, Closed(s, i, asFailure));
  }

  lemma UnawaitSame(s: State, i: Id, h: Id)
    requires h == Data(s, i).herd
    ensures SameBooks(s, Unawait(s, i)) && Later(s, Unawait(s, i), {})
    ensures Unawait(s, i).store == s.store && Unawait(s, i).live == s.live
    ensures SameBooks(s, Soil(Unawait(s, i), h)) && Later(s, Soil(Unawait(s, i), h), {})
  {
    LaterSame(s, Unawait(s, i));
    LaterSame(s, Soil(Unawait(s, i), h));
    hide Later;
  }

  lemma FinishWaiting(t: State, h: Id, steady: bool)
    requires Books(t, steady) && IsHerder(t.store, h) && h in t.live && Coherent(t.store[h])
    requires StatusOf(t.store[h]) == Waiting
    ensures Books(FinishHerder(t, h, false), steady) && Later(t, FinishHerder(t, h, false), {})
  {
    WaitingIsClosable(t, h);
    hide Books, FinishHerder, StatusOf, Coherent, Later, Closable;
    FinishHerderBooks(t, h, false, steady);
    FinishHerderLater(t, h, false);
  }

  /** With a live herder, the finished sheep is no longer awaited; that may finish the herder. */
  lemma ReleaseToHerder(s: State, i: Id, limbo: set<Id>, steady: bool)
    requires Herds(s, limbo, steady) && Books(s, steady) && InLimbo(s, i, limbo)
    requires i in s.store && s.store[i].herd in s.live
    ensures Books(Release(Forget(s, i), i), steady) && Later(s, Release(Forget(s, i), i), {})
  {
    hide *;
    var h := s.store[i].herd;
    var t := Unawait(s, i);
    StillAwaited(s, i, limbo, steady);
    InstFacts(s, h, limbo, steady);
    SheepIsNotHerder(s, i, limbo);
    ReleaseCases(s, i);
    UnawaitSame(s, i, h);
    SameBooksKeeps(s, t, steady);
    SameBooksKeeps(s, Soil(t, h), steady);
    if StatusOf(s.store[h]) == Waiting {
      SameHerder(s, t, h);
      FinishWaiting(t, h, steady);
      LaterThen(s, t, FinishHerder(t, h, false), {});
    }
  }

  lemma SheepIsNotHerder(s: State, i: Id, limbo: set<Id>)
    requires InLimbo(s, i, limbo)
    ensures i in s.store && s.store[i].herd != i && Data(s, i).herd == s.store[i].herd
  {
  }

  lemma SameHerder(s: State, t: State, h: Id)
    requires IsHerder(s.store, h) && t.store == s.store
    ensures IsHerder(t.store, h) && h in t.store
  {
  }

  lemma WaitingIsClosable(s: State, h: Id)
    requires h in s.store && h in s.live && StatusOf(s.store[h]) == Waiting
    ensures Closable(s, h) && StatusOf(s.store[h]) != Planned
  {
  }

  lemma ReleaseOrphan(s: State, i: Id, limbo: set<Id>, steady: bool)
    requires Inv(s, limbo, steady) && InLimbo(s, i, limbo) && s.store[i].herd !in s.live
    ensures Books(Release(Forget(s, i), i), steady) && Later(s, Release(Forget(s, i), i), {})
  {
    NoIndexes(s, s.store[i].herd, limbo, steady);
    hide Herds, Books, FinishHerder, StatusOf, Later;
    ForgetSetting(s, i);
    SameBooksKeeps(s, Forget(s, i), steady);
    LaterSame(s, Forget(s, i));
  }

  lemma NoIndexes(s: State, h: Id, limbo: set<Id>, steady: bool)
    requires Herds(s, limbo, steady) && h !in s.live
    ensures h !in s.awaited && h !in s.herds
  {
    hide Clean, Herding, Judged, HerdIndexed;
  }

  lemma FinishHerderBooks(s: State, h: Id, asFailure: bool, steady: bool)
    requires Books(s, steady) && h in s.store && Closable(s, h) && Coherent(s.store[h])
    ensures Books(FinishHerder(s, h, asFailure), steady)
  {
    CloseBooks(s, h, asFailure, steady);
    hide Books, Close, Forget, Coherent, Closable;
    ForgetSetting(Close(s, h, asFailure), h);
    SameBooksKeeps(Close(s, h, asFailure), FinishHerder(s, h, asFailure), steady);
  }

  lemma ReleaseInv(s: State, i: Id, limbo: set<Id>, steady: bool)
    requires Inv(s, limbo, steady) && InLimbo(s, i, limbo)
    ensures Inv(Release(Forget(s, i), i), limbo - {i}, steady)
    ensures Later(s, Release(Forget(s, i), i), {})
  {
    hide Herds, Books, Release, Forget, Later, StatusOf;
    ReleaseKeeps(s, i, limbo, steady);
    if s.store[i].herd in s.live {
      ReleaseToHerder(s, i, limbo, steady);
    } else {
      ReleaseOrphan(s, i, limbo, steady);
    }
  }

  lemma DropSheepInv(s: State, i: Id, asFailure: bool, limbo: set<Id>, steady: bool)
    requires Inv(s, limbo, steady) && i in s.store && s.store[i].herd != i && Unready(s.store, i)
    requires Unready(s.store, s.store[i].herd) ==> !asFailure
    ensures Inv(DropSheep(s, i, asFailure), limbo, steady)
    ensures Later(s, DropSheep(s, i, asFailure), {i})
  {
    var t := Close(s, i, asFailure);
    hide Herds, Books, Close, Release, Forget, Shape, InLimbo, StatusOf, Coherent, Later;
    InstFacts(s, i, limbo, steady);
    CloseSheepInv(s, i, asFailure, limbo, steady);
    ReleaseInv(t, i, limbo + {i}, steady);
    assert limbo + {i} - {i} == limbo;
    LaterThen(s, t, DropSheep(s, i, asFailure), {i});
  }

  // ---------------------------------------------------------------------------------------------
  // Queueing and canceling sheep
  // ---------------------------------------------------------------------------------------------

  lemma AdmitInv(s: State, i: Id, limbo: set<Id>, steady: bool)
    requires Herds(s, limbo, steady) && Books(s, steady) && Guarded(s, i)
    ensures Inv(Admit(s, i), limbo, steady) && Later(s, Admit(s, i), {i})
  {
    hide *;
    PlannedIsUnready(s, i);
    InstFacts(s, i, limbo, steady);
    AdmitEffect(s, i);
    HerdsParts(s, limbo, steady);
    AdmitBooks(s, i, limbo, steady);
    if QueueSize(s) < s.cfg.maxQueued {
      AdmitKeeps(s, i, limbo, steady);
      AdmitLater(s, i);
    } else {
      LaterItself(s, {i});
    }
    InvOf(Admit(s, i), limbo, steady);
  }

  lemma AdmitLater(s: State, i: Id)
    requires i in s.store && StatusOf(s.store[i]) == Planned
    ensures Later(s, s.(store := s.store[i := s.store[i].(queued := true)]), {i})
  {
    hide *;
    var inst := s.store[i].(queued := true);
    var t := s.(store := s.store[i := inst]);
    AdmitEvolves(i, s.store[i]);
    AdmitSetting(s, t, i, inst);
    LaterPut(s, t, i, inst);
  }

  lemma InvOf(s: State, limbo: set<Id>, steady: bool)
    requires Herds(s, limbo, steady) && Books(s, steady)
    ensures Inv(s, limbo, steady)
  {
  }

  lemma InvParts(s: State, limbo: set<Id>, steady: bool)
    requires Inv(s, limbo, steady)
    ensures Herds(s, limbo, steady) && Books(s, steady)
  {
  }

  lemma HerdsParts(s: State, limbo: set<Id>, steady: bool)
    requires Herds(s, limbo, steady)
    ensures Shape(s) && Clean(s, limbo) && Indexed(s, limbo) && Herding(s, limbo)
    ensures steady ==> Judged(s)
  {
  }

  lemma PlannedIsUnready(s: State, i: Id)
    requires Guarded(s, i)
    ensures i in s.store && StatusOf(s.store[i]) == Planned && Unready(s.store, i) && !Done(s.store, i)
  {
  }

  lemma AdmitEvolves(i: Id, inst: Inst)
    requires StatusOf(inst) == Planned
    ensures Evolves(i, inst, inst.(queued := true))
  {
  }

  lemma AdmitSetting(s: State, t: State, i: Id, inst: Inst)
    requires t == s.(store := s.store[i := inst])
    ensures SameSetting(s, t) && Rewritten(s, t, i, inst)
  {
  }

  lemma LaterItself(s: State, except: set<Id>)
    ensures Later(s, s, except)
  {
    assert SameSetting(s, s);
    LaterSame(s, s);
    hide *;
    LaterWeaken(s, s, {}, except);
  }

  lemma AdmitKeeps(s: State, i: Id, limbo: set<Id>, steady: bool)
    requires Herds(s, limbo, steady) && Guarded(s, i)
    ensures Herds(s.(store := s.store[i := s.store[i].(queued := true)]), limbo, steady)
  {
    var inst := s.store[i].(queued := true);
    var t := s.(store := s.store[i := inst]);
    PlannedIsUnready(s, i);
    InstFacts(s, i, limbo, steady);
    if inst.herd != i {
      GuardedHerd(s, i, limbo, steady);
    }
    assert StatusOf(inst) == Queued && Coherent(inst) && SameHerd(inst, s.store[i]);
    AdmitSetting(s, t, i, inst);
    hide Herds, Rewritten, StatusOf, Coherent, SameHerd, Shape;
    RewriteKeeps(s, t, i, inst, limbo, steady);
  }

  /** The herder of a guarded sheep has started, or is gone: it is not planned or queued. */
  lemma GuardedHerd(s: State, i: Id, limbo: set<Id>, steady: bool)
    requires Herds(s, limbo, steady) && Guarded(s, i) && s.store[i].herd != i
    ensures s.store[i].herd in s.store && !Unready(s.store, s.store[i].herd)
  {
    InstFacts(s, i, limbo, steady);
    InstFacts(s, s.store[i].herd, limbo, steady);
    hide Herds, Shape, Coherent;
  }

  /** Sheep of one herd. */
  ghost predicate AreSheep(s: State, ids: seq<Id>, h: Id) {
    forall j <- ids :: j in s.store && s.store[j].herd == h && j != h
  }

  lemma SheepStay(s: State, t: State, ids: seq<Id>, h: Id, except: set<Id>)
    requires AreSheep(s, ids, h) && Later(s, t, except)
    ensures AreSheep(t, ids, h)
  {
    forall j <- ids ensures j in t.store && t.store[j].herd == h && j != h {
      assert j in s.store && Evolves(j, s.store[j], t.store[j]);
    }
  }

  lemma {:induction false} DropSheepOfInv(s: State, ids: seq<Id>, h: Id, limbo: set<Id>, steady: bool)
    requires Inv(s, limbo, steady) && AreSheep(s, ids, h)
    ensures Inv(DropSheepOf(s, ids), limbo, steady)
    decreases |ids|
  {
    if ids != [] {
      assert AreSheep(s, ids[1..], h) && ids[0] in ids;
      var t := if Cancelable(s, ids[0]) then DropSheep(s, ids[0], false) else s;
      assert DropSheepOf(s, ids) == DropSheepOf(t, ids[1..]);
      hide Inv, DropSheep, DropSheepOf, StatusOf, Later;
      if Cancelable(s, ids[0]) {
        DropSheepInv(s, ids[0], false, limbo, steady);
        SheepStay(s, t, ids[1..], h, {ids[0]});
      }
      DropSheepOfInv(t, ids[1..], h, limbo, steady);
    }
  }

  /** Dropping a sheep does not change a herder that is not waiting. */
  lemma DropSheepLeaves(s: State, i: Id, asFailure: bool, h: Id)
    requires i in s.store && s.store[i].herd == h && h in s.store && h != i
    requires StatusOf(s.store[h]) != Waiting && h in s.live
    ensures h in DropSheep(s, i, asFailure).store && DropSheep(s, i, asFailure).store[h] == s.store[h]
    ensures h in DropSheep(s, i, asFailure).live
  {
    CloseEffect(s, i, asFailure);
    var c := Close(s, i, asFailure);
    assert Data(c, i).herd == h by { hide Close; ClosedHerd(s, i, asFailure); }
    hide Close, Closed, FinishHerder, StatusOf;
  }

  lemma ClosedHerd(s: State, i: Id, asFailure: bool)
    ensures Closed(s, i, asFailure).herd == Data(s, i).herd
  {
    hide Judge, Herded;
  }

  lemma NotGuarded(s: State, t: State, i: Id, h: Id)
    requires Later(s, t, {i}) && i in s.store && s.store[i].herd == h && h != i
    requires h in s.live && h in s.store && Unready(s.store, h)
    ensures Later(s, t, {})
  {
    assert !Guarded(s, i);
    hide Guarded, Evolves, StatusOf;
  }

  /** Canceling the sheep of a herder that has not started changes nothing else. */
  lemma {:induction false} DropSheepOfLater(s: State, ids: seq<Id>, h: Id, limbo: set<Id>, steady: bool)
    requires Inv(s, limbo, steady) && AreSheep(s, ids, h) && IsHerder(s.store, h) && Unready(s.store, h)
    ensures Later(s, DropSheepOf(s, ids), {})
    ensures h in DropSheepOf(s, ids).store && DropSheepOf(s, ids).store[h] == s.store[h]
    decreases |ids|
  {
    if ids != [] {
      assert AreSheep(s, ids[1..], h) && ids[0] in ids;
      var t := if Cancelable(s, ids[0]) then DropSheep(s, ids[0], false) else s;
      assert DropSheepOf(s, ids) == DropSheepOf(t, ids[1..]);
      InstFacts(s, h, limbo, steady);
      hide Inv, DropSheep, DropSheepOf, Later, Coherent, Shape;
      if Cancelable(s, ids[0]) {
        DropSheepInv(s, ids[0], false, limbo, steady);
        DropSheepLeaves(s, ids[0], false, h);
        NotGuarded(s, t, ids[0], h);
        SheepStay(s, t, ids[1..], h, {});
      } else {
        LaterItself(s, {});
      }
      DropSheepOfLater(t, ids[1..], h, limbo, steady);
      AndLater(s, t, DropSheepOf(t, ids[1..]), {});
    } else {
      LaterItself(s, {});
    }
  }

  lemma SheepAreSheep(s: State, h: Id, limbo: set<Id>, steady: bool)
    requires Herds(s, limbo, steady)
    ensures AreSheep(s, Ascending(Sheep(s, h), s.next), h)
  {
    if h in s.herds {
      assert h in s.live && IsHerder(s.store, h) && HerdIndexed(s, limbo, h);
    }
    hide Clean, Herding, Judged, Indexed, Shape;
    var ids := Ascending(Sheep(s, h), s.next);
    forall j <- ids ensures j in s.store && s.store[j].herd == h && j != h {
      var k :| 0 <= k < |ids| && ids[k] == j;
      assert j in Sheep(s, h);
    }
  }

  lemma CancelHerdInv(s: State, h: Id, limbo: set<Id>, steady: bool)
    requires Inv(s, limbo, steady)
    ensures Inv(CancelHerd(s, h), limbo, steady)
    ensures IsHerder(s.store, h) && Unready(s.store, h) ==>
              && Later(s, CancelHerd(s, h), {})
              && h in CancelHerd(s, h).store && CancelHerd(s, h).store[h] == s.store[h]
  {
    SheepAreSheep(s, h, limbo, steady);
    hide Inv, DropSheepOf, Later, Unready, Sheep;
    var ids := Ascending(Sheep(s, h), s.next);
    DropSheepOfInv(s, ids, h, limbo, steady);
    if IsHerder(s.store, h) && Unready(s.store, h) {
      DropSheepOfLater(s, ids, h, limbo, steady);
    }
  }
}
