/** How instances end: as their executor reports, aborted, or orphaned by a reload. */
module SchedulerEnds {
  import opened TaskStatus
  import opened Totals
  import opened SchedulerModel
  import opened SchedulerInvariants
  import opened SchedulerHerds
  import opened SchedulerBooks
  import opened SchedulerSteps
  import opened SchedulerActions
  import opened SchedulerRuns
  import opened SchedulerTheorems
  import opened SchedulerQueue
  import opened SchedulerLines
  import opened SchedulerForce
  import opened SchedulerShelter
  import opened SchedulerAgain
  import opened SchedulerCancel
  import opened SchedulerTwice

  // ---------------------------------------------------------------------------------------------
  // Results
  // ---------------------------------------------------------------------------------------------

  /** What its executor reports of an instance when it stops. */
  ghost predicate Reports(s: State, i: Id, ok: bool) {
    i in s.store && s.store[i].stopped && s.store[i].reported == ok
  }

  lemma ReportStays(s: State, t: State, i: Id, ok: bool)
    requires Reports(s, i, ok) && Progress(s, t)
    ensures Reports(t, i, ok)
  {
    assert Evolves(i, s.store[i], t.store[i]);
    hide StatusOf;
  }

  lemma VacateReports(s: State, i: Id, ok: bool)
    requires i in s.busy && i in s.store && StatusOf(s.store[i]) == Running
    ensures var t := Vacate(s, i, ok);
            Reports(t, i, ok) && t.store[i].success == ok && t.store[i].started && t.store[i].herd == s.store[i].herd
  {
  }

  /** A sheep is closed as its executor reported. */
  lemma SheepClosesAsReported(s: State, i: Id, ok: bool)
    requires Reports(s, i, ok) && s.store[i].success == ok && s.store[i].started && Coherent(s.store[i])
    requires i !in s.herds
    ensures var t := Close(s, i, false);
            i in t.store && StatusOf(t.store[i]) == (if ok then Success else Failure)
            && t.store[i].herd == s.store[i].herd
  {
    ClosedEffect(s, i, false);
    CloseEffect(s, i, false);
    CloseJudges(s, i, false);
    assert Herded(s, i) == map[] by { hide StatusOf; }
    hide Close, Closed, Coherent, StatusOf, Herded;
  }

  lemma NoHerdOfItsOwn(s: State, i: Id, limbo: set<Id>)
    requires Indexed(s, limbo) && i in s.store && s.store[i].herd != i
    ensures i !in s.herds
  {
    hide HerdIndexed;
  }

  lemma FinalStays(s: State, t: State, i: Id, except: set<Id>)
    requires Later(s, t, except) && i in s.store && s.store[i].herd != i && Done(s.store, i)
    ensures i in t.store && StatusOf(t.store[i]) == StatusOf(s.store[i])
  {
    assert Evolves(i, s.store[i], t.store[i]);
    hide StatusOf, Guarded;
  }

  lemma SheepStopsAsReported(s: State, i: Id, ok: bool, steady: bool)
    requires Inv(s, {}, steady) && i in s.store && s.store[i].herd != i && StatusOf(s.store[i]) == Waiting
    requires Reports(s, i, ok) && s.store[i].success == ok && s.store[i].started
    ensures i in StopSheep(s, i).store && StatusOf(StopSheep(s, i).store[i]) == if ok then Success else Failure
  {
    hide *;
    var t := Close(s, i, false);
    var u := Trigger(t, i);
    StopSheepCases(s, i);
    InvShape(s, {}, steady);
    HerdsParts(s, {}, steady);
    InstFacts(s, i, {}, steady);
    NoHerdOfItsOwn(s, i, {});
    SheepClosesAsReported(s, i, ok);
    SheepHasStartedHerder(s, i, {}, steady);
    CloseSheepInv(s, i, false, {}, steady);
    assert {} + {i} == {i};
    ClosedIsDone(t, i);
    TriggerKeeps(t, i, {i}, steady);
    FinalStays(t, u, i, {});
    StaysInLimbo(t, u, i, {i}, {});
    StillThere(t, u, {}, i);
    ReleaseInv(u, i, {i}, steady);
    ClosedIsDone(u, i);
    FinalStays(u, StopSheep(s, i), i, {});
  }

  lemma ClosedIsDone(s: State, i: Id)
    requires i in s.store && (StatusOf(s.store[i]) == Success || StatusOf(s.store[i]) == Failure)
    ensures Done(s.store, i)
  {
  }

  /** When the executor of an instance stops, what it reports is what is kept of it for ever after; a
      sheep has succeeded or failed accordingly. A herder that waits is judged on it and on its sheep. */
  lemma StopsAsReported(s: State, i: Id, ok: bool, script: seq<seq<Request>>, u: State)
    requires Inv(s, {}, false) && i in s.busy && i in s.store
    requires Progress(Apply(s, StopEvent(i, ok, script)), u)
    ensures Reports(u, i, ok)
    ensures s.store[i].herd != i ==> i in u.store && StatusOf(u.store[i]) == if ok then Success else Failure
  {
    hide *;
    var w := s.(script := script);
    var v := Vacate(w, i, ok);
    var t := Stop(w, i, ok);
    StopIs(s, i, ok, script);
    Scripted(s, script, false);
    BusyIsRunning(w, i, false);
    VacateInv(w, i, ok, false);
    VacateReports(w, i, ok);
    StopCases(w, i, ok);
    if v.store[i].herd == i {
      StopHerderKeeps(v, i, false, {i}, false);
      LaterIsProgress(v, t, {i});
    } else {
      StopSheepKeeps(v, i, false);
      LaterIsProgress(v, t, {i});
      SheepStopsAsReported(v, i, ok, false);
      StillThere(v, t, {i}, i);
      ClosedIsDone(t, i);
      DoneForEver(t, u, i);
    }
    ReportStays(v, t, i, ok);
    ReportStays(t, u, i, ok);
  }

  lemma StopIs(s: State, i: Id, ok: bool, script: seq<seq<Request>>)
    requires i in s.busy && i in s.store
    ensures Apply(s, StopEvent(i, ok, script)) == Stop(s.(script := script), i, ok)
  {
    hide Stop;
  }

  lemma DoneForEver(t: State, u: State, i: Id)
    requires Progress(t, u) && i in t.store && Done(t.store, i)
    ensures t.store[i].herd != i ==> i in u.store && StatusOf(u.store[i]) == StatusOf(t.store[i])
  {
    assert Evolves(i, t.store[i], u.store[i]);
    hide StatusOf;
  }

  /** A finished herder that does not wait for its sheep has the result its executor reported. */
  lemma HerderThatDoesNotWait(s: State, h: Id)
    requires Reached(s, true) && h in s.store && s.store[h].herd == h
    requires PolicyOf(s, s.store[h].task) == NoWait && Finished(StatusOf(s.store[h]))
    ensures StatusOf(s.store[h]) == Success <==> s.store[h].reported
  {
    ReachedInv(s, true);
    InstFacts(s, h, {}, true);
    assert s.store[h].success == s.store[h].reported by {
      assert Judged(s) && IsHerder(s.store, h) && Done(s.store, h);
      hide JudgedOn, StatusOf, Shape, Clean, Indexed, Herding, Reached, Herds, Books, Inv;
    }
    hide Reached, Herds, Books, Inv, Shape, Judged, PolicyOf;
  }

  // ---------------------------------------------------------------------------------------------
  // Aborting
  // ---------------------------------------------------------------------------------------------

  lemma StartedStays(s: State, t: State, j: Id, except: set<Id>)
    requires Later(s, t, except) && j in s.store && !Unready(s.store, j)
    ensures j in t.store && !Unready(t.store, j)
  {
    assert Evolves(j, s.store[j], t.store[j]);
    hide Guarded;
  }

  lemma DropSheepOfCases(s: State, ids: seq<Id>)
    ensures ids == [] ==> DropSheepOf(s, ids) == s
    ensures ids != [] ==>
              DropSheepOf(s, ids)
              == DropSheepOf(if Cancelable(s, ids[0]) then DropSheep(s, ids[0], false) else s, ids[1..])
    ensures forall i :: Cancelable(s, i) <==> i in s.store && Unready(s.store, i)
  {
    hide DropSheep, StatusOf;
  }

  lemma SheepRest(s: State, ids: seq<Id>, h: Id)
    requires AreSheep(s, ids, h) && ids != []
    ensures AreSheep(s, ids[1..], h) && ids[0] in s.store && s.store[ids[0]].herd == h && ids[0] != h
  {
    assert ids[0] in ids && forall i <- ids[1..] :: i in ids;
  }

  /** Of the sheep that are to be canceled none is planned or queued any more. */
  lemma {:induction false} DropSheepOfEnds(s: State, ids: seq<Id>, h: Id, steady: bool)
    requires Inv(s, {}, steady) && AreSheep(s, ids, h)
    ensures var t := DropSheepOf(s, ids);
            && (forall j <- ids :: j in t.store && !Unready(t.store, j))
            && (forall j <- s.store :: !Unready(s.store, j) ==> j in t.store && !Unready(t.store, j))
    decreases |ids|
  {
    hide *;
    DropSheepOfCases(s, ids);
    if ids != [] {
      var t := if Cancelable(s, ids[0]) then DropSheep(s, ids[0], false) else s;
      SheepRest(s, ids, h);
      if Cancelable(s, ids[0]) {
        DropSheepInv(s, ids[0], false, {}, steady);
        DropSheepCalmer(s, ids[0], false, {}, steady);
        SheepStay(s, t, ids[1..], h, {ids[0]});
        forall j <- s.store | !Unready(s.store, j) ensures j in t.store && !Unready(t.store, j) {
          StartedStays(s, t, j, {ids[0]});
        }
      }
      DropSheepOfEnds(t, ids[1..], h, steady);
      forall j <- ids ensures j in DropSheepOf(s, ids).store && !Unready(DropSheepOf(s, ids).store, j) {
        assert j == ids[0] || j in ids[1..];
      }
    }
  }

  /** After a herder that runs or waits is aborted, none of its sheep is planned or queued. */
  lemma AbortLeavesNobodyWaiting(s: State, h: Id, j: Id)
    requires Inv(s, {}, false) && h in s.live && IsHerder(s.store, h) && h in s.store && Active(StatusOf(s.store[h]))
    requires j in s.store && s.store[j].herd == h && j != h
    ensures j in Abort(s, h).store && !Unready(Abort(s, h).store, j)
  {
    hide *;
    AbortActs(s, h);
    InvShape(s, {}, false);
    InstFacts(s, j, {}, false);
    HerdsParts(s, {}, false);
    CancelHerdIs(s, h);
    SheepAreSheep(s, h, {}, false);
    var ids := Ascending(Sheep(s, h), s.next);
    DropSheepOfEnds(s, ids, h, false);
    if Unready(s.store, j) {
      SheepAreMembers(s, h);
      MemberIsListed(s, h, j);
    }
  }

  lemma AbortActs(s: State, h: Id)
    requires h in s.live && h in s.store && Active(StatusOf(s.store[h]))
    ensures Abort(s, h) == CancelHerd(s, h)
  {
    hide CancelHerd, StatusOf, Active;
  }

  lemma MemberIsListed(s: State, h: Id, j: Id)
    requires Shape(s) && Sheep(s, h) == Members(s.store, h) && j in s.store && s.store[j].herd == h && j != h
    ensures j in Ascending(Sheep(s, h), s.next)
  {
    hide Coherent, StatusOf, Sheep;
  }

  // ---------------------------------------------------------------------------------------------
  // Reloading
  // ---------------------------------------------------------------------------------------------

  lemma CancelOrphansEmpty(s: State)
    ensures CancelOrphans(s, []) == s
  {
  }

  /** An instance yet to start, whose task is gone, is canceled; its actions ask for nothing. */
  lemma OrphanEnds(s: State, i: Id)
    requires Inv(s, {}, false) && s.script == [] && i in s.store && Unready(s.store, i)
    ensures var t := Cancel(s, i);
            i in t.store && !Unready(t.store, i) && t.script == [] && NobodyNew(s.store, t.store)
  {
    hide *;
    var t := Cancel(s, i);
    QuietCancel(s, i, {}, false);
    InvShape(s, {}, false);
    InstFacts(s, i, {}, false);
    if s.store[i].herd != i {
      SheepEnds(s, i, {}, false);
      DoneIsStarted(t.store, i);
    } else {
      HerderOf(s.store, i);
      AloneIsSheltered(s, i);
      NobodyInLimbo(s);
      CancelFinishesExactly(s, i, Unasked, {}, false);
      AsksNothing(s);
      DoneIsStarted(t.store, i);
    }
  }

  lemma DoneIsStarted(store: Store, i: Id)
    requires i in store
    ensures Finished(StatusOf(store[i])) ==> !Unready(store, i)
    ensures Done(store, i) ==> !Unready(store, i)
  {
  }

  lemma AsksNothing(s: State)
    requires s.script == []
    ensures !AsksForSheep(s, s.script)
  {
  }

  lemma AloneIsSheltered(s: State, i: Id)
    requires s.script == [] && IsHerder(s.store, i) && Unready(s.store, i)
    ensures Sheltered(s, i, Unasked)
  {
    hide MaxQueued;
  }

  lemma {:induction false} CancelOrphansEnds(s: State, ids: seq<Id>)
    requires Inv(s, {}, false) && s.script == []
    ensures var t := CancelOrphans(s, ids);
            && NobodyNew(s.store, t.store) && t.enabled == s.enabled && t.cfg == s.cfg
            && (forall j <- s.store :: !Unready(s.store, j) ==> j in t.store && !Unready(t.store, j))
            && (forall j <- ids | j in s.store && s.store[j].task !in s.cfg.tasks ::
                  j in t.store && !Unready(t.store, j))
    decreases |ids|
  {
    hide *;
    if ids == [] {
      CancelOrphansEmpty(s);
      NobodyNewTrans(s.store, s.store, s.store);
    } else {
      OrphansCases(s, ids);
      DropSheepOfCases(s, []);
      var orphan := Cancelable(s, ids[0]) && Data(s, ids[0]).task !in s.cfg.tasks;
      var t := if orphan then Cancel(s, ids[0]) else s;
      NobodyNewTrans(s.store, t.store, CancelOrphans(s, ids).store);
      if orphan {
        OrphanEnds(s, ids[0]);
        CancelKeeps(s, ids[0], {}, false);
        SameTasks(s, t, {ids[0]});
        forall j <- s.store | !Unready(s.store, j) ensures j in t.store && !Unready(t.store, j) {
          StartedStays(s, t, j, {ids[0]});
        }
      }
      CancelOrphansEnds(t, ids[1..]);
      forall j <- ids | j in s.store && s.store[j].task !in s.cfg.tasks
        ensures j in CancelOrphans(s, ids).store && !Unready(CancelOrphans(s, ids).store, j)
      {
        if j == ids[0] {
          DataIs(s, j);
        } else {
          assert j in ids[1..];
        }
      }
    }
  }

  lemma SameTasks(s: State, t: State, except: set<Id>)
    requires Later(s, t, except)
    ensures t.cfg == s.cfg && t.enabled == s.enabled
    ensures forall j <- s.store :: j in t.store && t.store[j].task == s.store[j].task
  {
    hide Guarded, StatusOf;
  }

  /** After a reload, when actions ask for nothing, no planned or queued instance is left without a task;
      tasks that were disabled still are, and all others are enabled. */
  lemma ReloadLeavesNoOrphans(s: State, cfg: Config)
    requires Inv(s, {}, false)
    ensures var t := Apply(s, ReloadEvent(cfg, []));
            && (forall j <- t.store :: Unready(t.store, j) ==> t.store[j].task in cfg.tasks)
            && (forall task :: task in t.enabled <==>
                                 task in cfg.tasks && (task in s.cfg.tasks ==> task in s.enabled))
  {
    hide *;
    var w := s.(script := []);
    var u := Activate(w, cfg);
    var ids := Ascending(s.live, s.next);
    var t := CancelOrphans(u, ids);
    ReloadIs(s, cfg, []);
    Scripted(s, [], false);
    ActivateKeeps(w, cfg, false);
    ActivatedIs(w, cfg);
    CancelOrphansEnds(u, ids);
    CancelOrphansKeeps(u, ids, false);
    InvShape(s, {}, false);
    forall j <- t.store | Unready(t.store, j) ensures t.store[j].task in cfg.tasks {
      StillKnown(u, t, j);
      InstFacts(s, j, {}, false);
      LiveIsListed(s, j);
    }
  }

  lemma ActivatedIs(s: State, cfg: Config)
    ensures var u := Activate(s, cfg);
            && u.store == s.store && u.cfg == cfg && u.script == s.script
            && forall task :: task in u.enabled <==>
                                task in cfg.tasks && (task in s.cfg.tasks ==> task in s.enabled)
  {
    ActivateEffect(s, cfg);
    hide Resize;
  }

  lemma StillKnown(u: State, t: State, j: Id)
    requires NobodyNew(u.store, t.store) && Follows(u, t) && j in t.store
    ensures j in u.store && t.store[j].task == u.store[j].task
    ensures Unready(t.store, j) ==> Unready(u.store, j)
  {
    FollowsIsProgress(u, t);
    hide Follows;
    assert Evolves(j, u.store[j], t.store[j]);
  }

  lemma LiveIsListed(s: State, j: Id)
    requires Shape(s) && j in s.live
    ensures j in Ascending(s.live, s.next)
  {
    hide Coherent, StatusOf;
  }

  // ---------------------------------------------------------------------------------------------
  // The last sheep
  // ---------------------------------------------------------------------------------------------

  lemma TriggeredFirst(s: State, r: Request, i: Id)
    requires s.script != [] && s.script[0] != [] && s.script[0][0] == r && i in s.store && !r.lone
    ensures var x := s.(script := s.script[1..]);
            Trigger(s, i) == PlanAll(Plan(x, r, x.store[i].herd, i), s.script[0][1..], i)
  {
    hide *;
    var x := s.(script := s.script[1..]);
    TriggerCases(s, i);
    PlanAllCases(x, s.script[0], i);
    HerdOfSheep(x, r, i);
  }

  lemma HerdOfSheep(s: State, r: Request, i: Id)
    requires i in s.store && !r.lone
    ensures HerdFor(s, r, i) == s.store[i].herd
  {
  }

  /** While a sheep that was just finished triggers its actions, of which the first asks for another sheep,
      that one comes to stay. */
  lemma AnotherSheepStays(s: State, r: Request, i: Id, h: Id, steady: bool)
    requires Inv(s, {i}, steady) && Settled(s, {i}) && i in s.store && s.store[i].herd == h
    requires IsHerder(s.store, h) && h in s.live && !Unready(s.store, h)
    requires s.script != [] && s.script[0] != [] && s.script[0][0] == r && !r.lone && Known(s, r)
    ensures var u := Trigger(s, i);
            && s.next in u.store && !Done(u.store, s.next) && u.store[s.next].herd == h && s.next != h
            && StatusOf(u.store[s.next]) == Planned && h in u.live
  {
    UnforcedUnlimited();
    hide *;
    var x := s.(script := s.script[1..]);
    var p := Plan(x, r, h, i);
    var u := Trigger(s, i);
    TriggeredFirst(s, r, i);
    ScriptIsAside(s, s.script[1..], {i}, steady);
    HerderIn(s.store, h);
    HerderOf(x.store, h);
    KnownIs(s, r);
    KnownIs(x, r);
    SettledStays(s, x, {i}, {});
    SameUnready(s, x, h);
    NewSheepHolds(x, r, h, i, {i}, steady);
    PlanKeeps(x, r, h, i, {i}, steady);
    StillThere(x, p, {}, i);
    SettledStays(x, p, {i}, {});
    ShelteredFacts(p, s.next, Unlimited);
    PlanAllSpares(p, s.script[0][1..], i, s.next, Unlimited, {i}, steady);
    SparedFacts(p, u, s.next, Unlimited);
  }

  lemma SameUnready(s: State, t: State, h: Id)
    requires t.store == s.store && h in s.store
    ensures Unready(t.store, h) == Unready(s.store, h)
  {
  }

  /** When a sheep stops and the first of its requests is for another sheep, its herder goes on: the
      actions run before the sheep is no longer awaited, be it the last one. */
  lemma LastSheepKeepsItsHerder(s: State, i: Id, ok: bool, script: seq<seq<Request>>)
    requires Inv(s, {}, false) && i in s.busy && i in s.store && s.store[i].herd != i && s.store[i].herd in s.live
    requires script != [] && script[0] != [] && !script[0][0].lone && Known(s, script[0][0])
    ensures var t := Apply(s, StopEvent(i, ok, script)); s.store[i].herd in t.live
  {
    hide *;
    var h, w := s.store[i].herd, s.(script := script);
    var v := Vacate(w, i, ok);
    var c := Close(v, i, false);
    var u := Trigger(c, i);
    var t := StopSheep(v, i);
    StopIs(s, i, ok, script);
    Scripted(s, script, false);
    InvShape(s, {}, false);
    InstFacts(s, i, {}, false);
    BusyIsRunning(w, i, false);
    SheepHasStartedHerder(s, i, {}, false);
    VacateInv(w, i, ok, false);
    VacateHerd(w, i, ok);
    DataIs(w, i);
    StopCases(w, i, ok);
    StopSheepCases(v, i);
    InvShape(v, {}, false);
    InstFacts(v, i, {}, false);
    SheepHasStartedHerder(v, i, {}, false);
    CloseSheepInv(v, i, false, {}, false);
    assert {} + {i} == {i};
    ClosedIsSettled(v, i);
    StillThere(v, c, {i}, i);
    VacateSetting(w, i, ok);
    ClosedAside(v, i);
    KnownIs(s, script[0][0]);
    KnownIs(c, script[0][0]);
    InvShape(c, {i}, false);
    InstFacts(c, i, {i}, false);
    ReadyStays(v, c, h, {i});
    AnotherSheepStays(c, script[0][0], i, h, false);
    TriggerKeeps(c, i, {i}, false);
    StaysInLimbo(c, u, i, {i}, {});
    StillThere(c, u, {}, i);
    InvShape(u, {i}, false);
    PlannedIsNotRunningHerder(u, i, c.next);
    ReleaseSpares(u, i, c.next, Unlimited, {i}, false);
    SparedFacts(u, t, c.next, Unlimited);
  }

  lemma ReadyStays(s: State, t: State, h: Id, except: set<Id>)
    requires Later(s, t, except) && h in s.store && !Unready(s.store, h)
    ensures h in t.store && !Unready(t.store, h)
  {
    StartedStays(s, t, h, except);
  }

  lemma VacateSetting(s: State, i: Id, ok: bool)
    requires i in s.busy
    ensures var t := Vacate(s, i, ok);
            t.cfg == s.cfg && t.enabled == s.enabled && t.script == s.script && t.live == s.live
  {
  }

  lemma ClosedAside(s: State, i: Id)
    ensures var t := Close(s, i, false);
            t.cfg == s.cfg && t.enabled == s.enabled && t.script == s.script && t.live == s.live
  {
    GiveBackEffect(s, i);
    hide Closed, GiveBack;
  }

  lemma PlannedIsNotRunningHerder(s: State, i: Id, j: Id)
    requires i in s.store && j in s.store && StatusOf(s.store[j]) == Planned && s.store[j].herd == s.store[i].herd
    requires s.store[j].herd != j
    ensures s.store[i].herd != j
  {
  }
}
