/** When a request to cancel a herder takes effect. */
module SchedulerCancel {
  import opened TaskStatus
  import opened SchedulerModel
  import opened SchedulerInvariants
  import opened SchedulerHerds
  import opened SchedulerBooks
  import opened SchedulerSteps
  import opened SchedulerActions
  import opened SchedulerRuns
  import opened SchedulerTheorems
  import opened SchedulerQueue
  import opened SchedulerLines
  import opened SchedulerForce
  import opened SchedulerShelter
  import opened SchedulerAgain

  /** Some request of the first list asks for a sheep of a task that exists and is enabled. */
  predicate AsksForSheep(s: State, script: seq<seq<Request>>) {
    script != [] && exists r <- script[0] :: !r.lone && Known(s, r)
  }

  /** A sheep that is planned for a herder yet to start is awaited when its own actions are over. */
  lemma SheepJoins(s: State, req: Request, h: Id, m: Shelter, limbo: set<Id>, steady: bool)
    requires m == Roomy ==> steady
    requires Inv(s, limbo, steady) && Settled(s, limbo) && IsHerder(s.store, h) && Unready(s.store, h)
    requires h in s.live && h in s.store && Sheltered(s, h, m) && Known(s, req)
    requires Unforced(m, Plan(s, req, h, h)) && (m == Unasked ==> req.task != s.store[h].task)
    ensures Get(Plan(s, req, h, h).awaited, h, {}) != {}
  {
    KnownIs(s, req);
    hide *;
    PlanCases(s, req, h, h);
    var t := Insert(s, req, h, h);
    var u := Trigger(t, s.next);
    InvShape(s, limbo, steady);
    ShelteredFacts(s, h, m);
    InsertInv(s, req, h, h, limbo, steady);
    InsertLater(s, req, h, h);
    SettledStays(s, t, limbo, {});
    InsertSpares(s, req, h, h, h, m);
    InsertDeduped(s, req, h, h, h, m);
    InsertTask(s, req, h, h);
    SparedFacts(s, t, h, m);
    NotWaiting(s, h);
    StillSheltered(s, t, h, m, {});
    TriggerKeeps(t, s.next, limbo, steady);
    SoilIsAside(u, h, limbo, steady);
    UnforcedBefore(u, Soil(u, h), {}, m);
    TriggerSpares(t, s.next, h, m, limbo, steady);
    SparedFacts(t, u, h, m);
    SoilSpares(u, h, h, m);
    SparedFacts(t, u, h, m);
    SparesTrans(t, u, Soil(u, h), h, m);
    SparedFacts(t, Soil(u, h), h, m);
  }

  lemma NotWaiting(s: State, h: Id)
    requires h in s.store && Unready(s.store, h)
    ensures StatusOf(s.store[h]) != Waiting
  {
  }

  lemma ApartFacts(s: State, t: State, h: Id)
    requires Apart(s, t, h) && h in s.store && Unready(s.store, h)
    ensures Get(t.awaited, h, {}) == Get(s.awaited, h, {})
  {
  }

  lemma PositiveId(s: State, h: Id)
    requires Shape(s) && h in s.store
    ensures 0 < h
  {
  }

  lemma KnownStays(s: State, t: State, except: set<Id>)
    requires Later(s, t, except)
    ensures forall r: Request :: Known(t, r) <==> Known(s, r)
  {
    hide Guarded, Evolves, StatusOf;
  }

  /** The requests of a herder yet to start leave it something to wait for exactly when one of them
      asks for a sheep. */
  lemma {:induction false} PlanAllSheep(s: State, reqs: seq<Request>, h: Id, m: Shelter, limbo: set<Id>, steady: bool)
    requires m == Roomy ==> steady
    requires Inv(s, limbo, steady) && Settled(s, limbo) && IsHerder(s.store, h) && Unready(s.store, h)
    requires h in s.live && h in s.store && Sheltered(s, h, m) && Unforced(m, PlanAll(s, reqs, h))
    requires m == Unasked ==> forall r <- reqs :: r.task != s.store[h].task
    ensures Get(PlanAll(s, reqs, h).awaited, h, {}) != {}
       <==> Get(s.awaited, h, {}) != {} || exists r <- reqs :: !r.lone && Known(s, r)
    decreases |reqs|
  {
    hide *;
    PlanAllCases(s, reqs, h);
    if reqs != [] {
      var herd := HerdFor(s, reqs[0], h);
      var t := Plan(s, reqs[0], herd, h);
      var u := PlanAll(t, reqs[1..], h);
      InvShape(s, limbo, steady);
      PlanHerd(s, reqs[0], h, limbo, steady);
      HerdForHerder(s, reqs[0], h);
      NotWaiting(s, h);
      PlanKeeps(s, reqs[0], herd, h, limbo, steady);
      StillHerder(s, t, {}, h);
      StillThere(s, t, {}, h);
      SettledStays(s, t, limbo, {});
      PlanAllKeeps(t, reqs[1..], h, limbo, steady);
      UnforcedBefore(t, u, {}, m);
      assert reqs[0] in reqs && forall r <- reqs[1..] :: r in reqs;
      assert forall r <- reqs :: r == reqs[0] || r in reqs[1..];
      PlanSpares(s, reqs[0], herd, h, h, m, limbo, steady);
      SparedFacts(s, t, h, m);
      KnownStays(s, t, {});
      PlanAllSheep(t, reqs[1..], h, m, limbo, steady);
      if !Known(s, reqs[0]) {
        UnknownPlansNothing(s, reqs[0], herd, h);
      } else if reqs[0].lone {
        PositiveId(s, h);
        ApartFacts(s, t, h);
      } else {
        SheepJoins(s, reqs[0], h, m, limbo, steady);
      }
    }
  }

  /** A herder yet to start, which no arriving instance can displace, is canceled exactly when its
      policy is not to wait or its finish actions ask for no sheep; otherwise it is as if nothing had
      been asked. */
  lemma CancelFinishesExactly(s: State, h: Id, m: Shelter, limbo: set<Id>, steady: bool)
    requires m == Roomy ==> steady
    requires Inv(s, limbo, steady) && Settled(s, limbo) && IsHerder(s.store, h) && Unready(s.store, h)
    requires h in s.store && Sheltered(s, h, m) && (m == Refusing ==> Meek(s))
    ensures h in Cancel(s, h).store
    ensures Finished(StatusOf(Cancel(s, h).store[h]))
       <==> PolicyOf(s, s.store[h].task) == NoWait || !AsksForSheep(s, s.script)
    ensures !Finished(StatusOf(Cancel(s, h).store[h])) ==> StatusOf(Cancel(s, h).store[h]) == StatusOf(s.store[h])
  {
    hide *;
    var u := CancelHerd(s, h);
    var w := Watch(u, h);
    var t := Trigger(w, h);
    CancelUnforced(s, h, m, limbo, steady);
    CancelCases(s, h);
    InvShape(s, limbo, steady);
    InstFacts(s, h, limbo, steady);
    ShelteredFacts(s, h, m);
    NotWaiting(s, h);
    CancelHerdEmpties(s, h, limbo, steady);
    CancelHerdInv(s, h, limbo, steady);
    HerderStays(s, u, h);
    HerderStillSheltered(s, h, m, limbo, steady);
    InvShape(u, limbo, steady);
    InstFacts(u, h, limbo, steady);
    SettledStays(s, u, limbo, {});
    UnreadyIsStoppable(s, u, h, limbo);
    StoppableFacts(u, h, limbo);
    StopHerderCases(u, h, false);
    WatchIsAside(u, h, limbo, steady);
    WatchIndexes(u, h);
    SettledStays(u, w, limbo, {});
    InvShape(u, limbo, steady);
    WatchSheltered(u, h, m, limbo, steady);
    TriggerKeeps(w, h, limbo, steady);
    InvShape(t, limbo, steady);
    LaterThen(u, w, t, {});
    LaterThen(s, u, t, {});
    NotRunning(u, t, h, limbo, steady);
    FinishHerderLater(t, h, false);
    SoilIsAside(t, h, limbo, steady);
    LaterWeaken(t, Soil(t, h), {}, {h});
    UnforcedBefore(t, Cancel(s, h), {h}, m);
    TriggerSpares(w, h, h, m, limbo, steady);
    SparedFacts(w, t, h, m);
    TriggerSheep(w, h, m, limbo, steady);
    SameKnown(s, w);
    PolicyStays(s, t, h);
    FinishHerderCalmer(t, h, false);
    SoilStore(t, h);
    UnreadyIsNotFinished(t.store, h);
  }

  lemma CancelUnforced(s: State, h: Id, m: Shelter, limbo: set<Id>, steady: bool)
    requires Inv(s, limbo, steady) && h in s.store && (m == Refusing ==> Meek(s))
    ensures Unforced(m, Cancel(s, h))
  {
    if m == Refusing {
      hide *;
      CancelMeek(s, h, limbo, steady);
      MeekParts(Cancel(s, h));
    }
    hide Cancel, NoForce;
  }

  lemma HerderStillSheltered(s: State, h: Id, m: Shelter, limbo: set<Id>, steady: bool)
    requires Inv(s, limbo, steady) && Settled(s, limbo) && IsHerder(s.store, h) && Unready(s.store, h)
    requires h in s.store && Sheltered(s, h, m)
    ensures var u := CancelHerd(s, h);
            h in u.store && Sheltered(u, h, m) && u.cfg == s.cfg && u.enabled == s.enabled
  {
    hide *;
    var u := CancelHerd(s, h);
    InvShape(s, limbo, steady);
    InstFacts(s, h, limbo, steady);
    ShelteredFacts(s, h, m);
    CancelHerdEmpties(s, h, limbo, steady);
    CancelHerdInv(s, h, limbo, steady);
    InvShape(u, limbo, steady);
    InstFacts(u, h, limbo, steady);
    NotWaiting(s, h);
    SameConfig(s, u, {});
    SameEnabled(s, u, {});
    HerderStays(s, u, h);
    if m == Refusing {
      CalmerDeduped(s, u, s.store[h].task, false);
    }
    UnreadyStays(s, u, h);
    SameInstSheltered(s, u, h, m);
  }

  lemma UnreadyStays(s: State, u: State, h: Id)
    requires h in s.store && h in u.store && u.store[h] == s.store[h]
    ensures Unready(u.store, h) == Unready(s.store, h) && Done(u.store, h) == Done(s.store, h)
  {
  }

  lemma SameEnabled(s: State, t: State, except: set<Id>)
    requires Later(s, t, except)
    ensures t.enabled == s.enabled
  {
    hide Guarded, Evolves, StatusOf;
  }

  lemma SameInstSheltered(s: State, u: State, h: Id, m: Shelter)
    requires Sheltered(s, h, m) && IsHerder(s.store, h) && Unready(s.store, h)
    requires h in u.store && u.store[h] == s.store[h] && u.cfg == s.cfg && u.script == s.script
    requires m == Refusing ==> Deduped(u, s.store[h].task, false)
    ensures Sheltered(u, h, m)
  {
    hide Deduped, NeverAsked;
  }

  lemma WatchSheltered(s: State, h: Id, m: Shelter, limbo: set<Id>, steady: bool)
    requires Inv(s, limbo, steady) && Sheltered(s, h, m) && IsHerder(s.store, h) && Unready(s.store, h)
    ensures Sheltered(Watch(s, h), h, m)
  {
    hide *;
    ShelteredFacts(s, h, m);
    WatchIndexes(s, h);
    if m == Refusing {
      WatchDeduped(s, h, s.store[h].task, false);
    }
    SameInstSheltered(s, Watch(s, h), h, m);
  }

  lemma TriggerSheep(s: State, h: Id, m: Shelter, limbo: set<Id>, steady: bool)
    requires m == Roomy ==> steady
    requires Inv(s, limbo, steady) && Settled(s, limbo) && IsHerder(s.store, h) && Unready(s.store, h)
    requires h in s.live && h in s.store && Sheltered(s, h, m) && Unforced(m, Trigger(s, h))
    requires Get(s.awaited, h, {}) == {}
    ensures Get(Trigger(s, h).awaited, h, {}) != {} <==> AsksForSheep(s, s.script)
  {
    AsksCases(s);
    hide *;
    TriggerCases(s, h);
    if s.script != [] {
      var t := s.(script := s.script[1..]);
      ScriptIsAside(s, s.script[1..], limbo, steady);
      SettledStays(s, t, limbo, {});
      ShelteredFacts(s, h, m);
      SparesSame(s, t, h, m);
      NotWaiting(s, h);
      if m == Unasked {
        NeverAskedRest(s, h, m);
      }
      if m == Refusing {
        SameDeduped(s, t, s.store[h].task, false);
      }
      StillSheltered(s, t, h, m, {});
      HerderStays(s, t, h);
      SparedFacts(s, t, h, m);
      KnownStays(s, t, {});
      PlanAllSheep(t, s.script[0], h, m, limbo, steady);
    }
  }

  lemma AsksCases(s: State)
    ensures s.script == [] ==> !AsksForSheep(s, s.script)
    ensures s.script != [] ==> (AsksForSheep(s, s.script) <==> exists r <- s.script[0] :: !r.lone && Known(s, r))
  {
  }

  lemma SameKnown(s: State, t: State)
    requires t.cfg == s.cfg && t.enabled == s.enabled && t.script == s.script
    ensures AsksForSheep(t, t.script) <==> AsksForSheep(s, s.script)
  {
    forall r: Request ensures Known(t, r) <==> Known(s, r) {
    }
  }

  lemma PolicyStays(s: State, t: State, h: Id)
    requires Later(s, t, {}) && h in s.store
    ensures h in t.store && t.store[h].task == s.store[h].task
    ensures PolicyOf(t, t.store[h].task) == PolicyOf(s, s.store[h].task)
  {
    assert Evolves(h, s.store[h], t.store[h]);
    hide Guarded, StatusOf;
  }

  /** No instance that actions with these answers bring in can take the place of a queued one: its task
      does not limit its queued instances, or is not asked for, or is within its limit and refuses those
      that arrive, none being forced. */
  ghost predicate Irreplaceable(s: State, j: Id, script: seq<seq<Request>>) {
    && j in s.store
    && (|| MaxQueued(s, j) == 0 || NeverAsked(script, s.store[j].task)
        || (Deduped(s, s.store[j].task, false) && NoForce(s) && ForcesNothing(script)))
  }

  lemma IrreplaceableIsSheltered(s: State, h: Id, script: seq<seq<Request>>) returns (m: Shelter)
    requires h in s.store && s.store[h].herd == h
    requires StatusOf(s.store[h]) == Planned || (StatusOf(s.store[h]) == Queued && Irreplaceable(s, h, script))
    ensures Sheltered(s.(script := script), h, m) && (m == Refusing ==> Meek(s.(script := script))) && m != Roomy
  {
    hide NoForce, Deduped, NeverAsked, MaxQueued, ForcesNothing;
    var u := s.(script := script);
    m := if StatusOf(s.store[h]) != Queued || MaxQueued(s, h) == 0 then Unlimited
         else if NeverAsked(script, s.store[h].task) then Unasked
         else Refusing;
    assert StatusOf(s.store[h]) == Planned ==> Guarded(u, h);
    assert MaxQueued(u, h) == MaxQueued(s, h) by { MaxIsAside(s, script, h); }
    if m == Refusing {
      assert Deduped(u, s.store[h].task, false) by { SameDeduped(s, u, s.store[h].task, false); }
      assert Meek(u) by { ScriptedMeek(s, script); }
    }
  }

  lemma MaxIsAside(s: State, script: seq<seq<Request>>, h: Id)
    ensures MaxQueued(s.(script := script), h) == MaxQueued(s, h)
  {
  }

  /** In any reached state, a herder that is planned, or is queued and cannot be replaced, is canceled
      by a request exactly when its policy is not to wait or its finish actions ask for no sheep;
      otherwise it is still planned or queued. */
  lemma CanceledExactly(s: State, h: Id, script: seq<seq<Request>>)
    requires Reached(s, false) && h in s.live && h in s.store && s.store[h].herd == h
    requires StatusOf(s.store[h]) == Planned || (StatusOf(s.store[h]) == Queued && Irreplaceable(s, h, script))
    ensures var t := Apply(s, CancelEvent(h, script));
            && h in t.store
            && (Finished(StatusOf(t.store[h]))
                <==> PolicyOf(s, s.store[h].task) == NoWait || !AsksForSheep(s, script))
            && (!Finished(StatusOf(t.store[h])) ==> StatusOf(t.store[h]) == StatusOf(s.store[h]))
  {
    hide *;
    var u := s.(script := script);
    CancelRequested(s, h, script);
    ReachedInv(s, false);
    Scripted(s, script, false);
    NobodyInLimbo(u);
    var m := IrreplaceableIsSheltered(s, h, script);
    CancelFinishesExactly(u, h, m, {}, false);
  }

  lemma CancelRequested(s: State, h: Id, script: seq<seq<Request>>)
    requires h in s.live && h in s.store && s.store[h].herd == h
    requires StatusOf(s.store[h]) == Planned || StatusOf(s.store[h]) == Queued
    ensures var u := s.(script := script);
            && Enabled(s, CancelEvent(h, script)) && Apply(s, CancelEvent(h, script)) == Cancel(u, h)
            && Unready(u.store, h) && IsHerder(u.store, h)
            && PolicyOf(u, u.store[h].task) == PolicyOf(s, s.store[h].task)
            && (AsksForSheep(u, script) <==> AsksForSheep(s, script))
  {
    assert forall r: Request :: Known(s.(script := script), r) <==> Known(s, r);
    hide Cancel;
  }

  lemma UnreadyIsNotFinished(store: Store, i: Id)
    requires i in store && Unready(store, i)
    ensures !Finished(StatusOf(store[i])) && StatusOf(store[i]) != Canceled
  {
  }
}
