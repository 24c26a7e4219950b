/** Runs whose actions answer alike: a task that keeps the last instances and does not wait for sheep is
    always within its limit. */
module SchedulerAlike {
  import opened TaskStatus
  import opened SchedulerModel
  import opened SchedulerInvariants
  import opened SchedulerHerds
  import opened SchedulerBooks
  import opened SchedulerSteps
  import opened SchedulerActions
  import opened SchedulerRuns
  import opened SchedulerTheorems
  import opened SchedulerQueue
  import opened SchedulerLines
  import opened SchedulerForce
  import opened SchedulerShelter
  import opened SchedulerAgain
  import opened SchedulerAnswers
  import C = Conditions

  // ---------------------------------------------------------------------------------------------
  // Events
  // ---------------------------------------------------------------------------------------------

  ghost predicate StartAlike(s: State, i: Id, act: Answers) {
    var inst := Data(s, i);
    if inst.task !in s.cfg.tasks || inst.task !in s.enabled then true
    else if s.idle == [] && !inst.force then true
    else if Get(s.count, inst.task, 0) >= s.cfg.tasks[inst.task].maxInstances && !inst.force then true
    else
      var hosts := Candidates(s, s.cfg.tasks[inst.task].target);
      if hosts == [] then inst.herd == i ==> StopHerderAlike(s, i, act)
      else
        var chosen := Choose(s, hosts, s.cfg.tasks[inst.task].resources, inst.force);
        chosen != [] ==> Inside(Launch(s, i, chosen[0]), i, act)
  }

  ghost predicate StartAllAlike(s: State, ids: seq<Id>, act: Answers)
    decreases |ids|
  {
    ids != [] ==>
      var go := ids[0] in s.store && StatusAt(s, ids[0]) == Queued;
      && (go ==> StartAlike(s, ids[0], act))
      && StartAllAlike(if go then Start(s, ids[0]) else s, ids[1..], act)
  }

  ghost predicate ReevaluateAlike(s: State, i: Id, act: Answers) {
    var inst := Data(s, i);
    var herder := LiveStatus(s, inst.herd);
    if StatusOf(inst) != Planned || herder == Planned || herder == Queued then true
    else if C.Holds(inst.queuewhen, Herded(s, inst.herd)) then EnqueueAlike(s, i, act)
    else if C.Holds(inst.cancelwhen, Herded(s, inst.herd)) then CancelAlike(s, i, act)
    else true
  }

  ghost predicate ReevaluateAllAlike(s: State, ids: seq<Id>, dirty: set<Id>, act: Answers)
    decreases |ids|
  {
    ids != [] ==>
      var go := ids[0] in s.store && Data(s, ids[0]).herd in dirty;
      && (go ==> ReevaluateAlike(s, ids[0], act))
      && ReevaluateAllAlike(if go then Reevaluate(s, ids[0]) else s, ids[1..], dirty, act)
  }

  ghost predicate StopAlike(s: State, i: Id, ok: bool, act: Answers)
    requires i in s.busy
  {
    var t := Vacate(s, i, ok);
    if Data(t, i).herd == i then StopHerderAlike(t, i, act) else Inside(Close(t, i, false), i, act)
  }

  /** The actions triggered within an event answer alike. */
  ghost predicate EventAlike(s: State, e: Event, act: Answers)
    requires Enabled(s, e)
  {
    match e
    case PlanEvent(req, herd, script) => PlanAlike(s.(script := script), req, herd, 0, act)
    case ReevaluateEvent(script) =>
      ReevaluateAllAlike(s.(script := script, dirty := {}), Ascending(s.live, s.next), s.dirty, act)
    case StartEvent(script) => StartAllAlike(s.(script := script), Ascending(s.live, s.next), act)
    case StopEvent(i, ok, script) => StopAlike(s.(script := script), i, ok, act)
    case CancelEvent(i, script) => i in s.live ==> CancelAlike(s.(script := script), i, act)
    case _ => true
  }

  /** Without reloads, the actions triggered within each event answer alike. */
  ghost predicate Alike(s: State, events: seq<Event>)
    requires Possible(s, events)
    decreases |events|
  {
    events != [] ==>
      && !events[0].ReloadEvent? && (exists act :: EventAlike(s, events[0], act))
      && Alike(Apply(s, events[0]), events[1..])
  }

  /** The same answers in all events, as a configuration gives them. */
  ghost predicate AlikeTo(s: State, events: seq<Event>, act: Answers)
    requires Possible(s, events)
    decreases |events|
  {
    events != [] ==>
      !events[0].ReloadEvent? && EventAlike(s, events[0], act) && AlikeTo(Apply(s, events[0]), events[1..], act)
  }

  lemma {:induction false} AlikeToIsAlike(s: State, events: seq<Event>, act: Answers)
    requires Possible(s, events) && AlikeTo(s, events, act)
    ensures Alike(s, events)
    decreases |events|
  {
    if events != [] {
      AlikeToIsAlike(Apply(s, events[0]), events[1..], act);
      hide Apply, EventAlike;
    }
  }

  lemma {:induction false} AlikeSnoc(s: State, events: seq<Event>, e: Event, act: Answers)
    requires Possible(s, events) && AlikeTo(s, events, act) && Enabled(After(s, events), e)
    requires !e.ReloadEvent? && EventAlike(After(s, events), e, act)
    ensures Possible(s, events + [e]) && After(s, events + [e]) == Apply(After(s, events), e)
    ensures AlikeTo(s, events + [e], act)
    decreases |events|
  {
    if events == [] {
      assert [] + [e] == [e] && [e][1..] == [];
    } else {
      var t := Apply(s, events[0]);
      assert Possible(t, events[1..]) && After(s, events) == After(t, events[1..]);
      assert (events + [e])[0] == events[0] && (events + [e])[1..] == events[1..] + [e];
      AlikeSnoc(t, events[1..], e, act);
    }
    hide Apply, EventAlike;
  }

  lemma {:induction false} AlikeIsFixed(s: State, events: seq<Event>)
    requires Possible(s, events) && Alike(s, events)
    ensures forall e <- events :: !e.ReloadEvent?
    decreases |events|
  {
    if events != [] {
      AlikeIsFixed(Apply(s, events[0]), events[1..]);
      assert events == [events[0]] + events[1..];
    }
    hide Apply, EventAlike;
  }

  // ---------------------------------------------------------------------------------------------
  // The steps
  // ---------------------------------------------------------------------------------------------

  lemma ReadyIs(s: State, us: set<TaskId>, limbo: set<Id>, steady: bool)
    requires Inv(s, limbo, steady) && Settled(s, limbo) && Fit(s, us)
    ensures Ready(s, {}, us, limbo, steady)
  {
    hide Inv, Settled, Fit;
  }

  lemma HoldsIsFit(s: State, t: State, places: set<Place>, us: set<TaskId>)
    requires Holds(s, t, places, us)
    ensures Fit(t, us)
  {
    hide Fit, SameKin;
  }

  lemma InsideCases(s: State, i: Id, act: Answers)
    requires Inside(s, i, act) && s.script != []
    ensures PlanAllAlike(s.(script := s.script[1..]), s.script[0], i, act)
  {
    hide PlanAllAlike;
  }

  lemma SameFit(s: State, t: State, us: set<TaskId>)
    requires Fit(s, us) && t.store == s.store && t.cfg == s.cfg
    ensures Fit(t, us)
  {
    hide Kin;
  }

  lemma InsideFits(s: State, i: Id, act: Answers, us: set<TaskId>, limbo: set<Id>, steady: bool)
    requires Inv(s, limbo, steady) && Settled(s, limbo) && Fit(s, us) && i in s.store && Inside(s, i, act)
    requires NoForce(Trigger(s, i))
    ensures Fit(Trigger(s, i), us)
  {
    hide *;
    TriggerCases(s, i);
    if s.script != [] {
      var t := s.(script := s.script[1..]);
      InsideCases(s, i, act);
      ScriptIsAside(s, s.script[1..], limbo, steady);
      SettledStays(s, t, limbo, {});
      SameFit(s, t, us);
      ReadyIs(t, us, limbo, steady);
      NothingRequestCloses(t, act);
      PlanAllHolds(t, s.script[0], i, act, {}, us, limbo, steady);
      HoldsIsFit(t, Trigger(s, i), {}, us);
    }
  }

  lemma AnsweredIsInside(s: State, i: Id, answer: seq<Request>, act: Answers)
    requires Answered(s, i, answer, act)
    ensures Inside(s, i, act)
  {
    hide PlanAllAlike;
  }

  lemma StopHerderFits(s: State, h: Id, asFailure: bool, act: Answers, us: set<TaskId>, limbo: set<Id>, steady: bool)
    requires Inv(s, limbo, steady) && Settled(s, limbo) && Fit(s, us) && Stoppable(s, h, limbo)
    requires StopHerderAlike(s, h, act) && NoForce(StopHerder(s, h, asFailure))
    ensures Fit(StopHerder(s, h, asFailure), us)
  {
    hide *;
    var w := Watch(s, h);
    var t := Trigger(w, h);
    StoppableFacts(s, h, limbo);
    StopHerderCases(s, h, asFailure);
    StopHerderAlikeCases(s, h, act);
    if !s.store[h].started {
      AnsweredIsInside(w, h, act.onCancel(s.store[h].task), act);
    }
    WatchIsAside(s, h, limbo, steady);
    WatchIndexes(s, h);
    SettledStays(s, w, limbo, {});
    SameFit(s, w, us);
    TriggerKeeps(w, h, limbo, steady);
    InvShape(s, limbo, steady);
    LaterThen(s, w, t, {});
    NotRunning(s, t, h, limbo, steady);
    SoilStore(t, h);
    SoilConfig(t, h);
    FinishHerderLine(t, h, asFailure);
    FinishHerderSetting(t, h, asFailure);
    SameSettingConfig(t, FinishHerder(t, h, asFailure));
    LineItself(t.store);
    if StopHerder(s, h, asFailure) == FinishHerder(t, h, asFailure) {
      LineForce(t, FinishHerder(t, h, asFailure), {h});
    } else {
      LineForce(t, Soil(t, h), {});
    }
    InsideFits(w, h, act, us, limbo, steady);
    SameFit(t, Soil(t, h), us);
    FitLine(t, FinishHerder(t, h, asFailure), {h}, us);
  }

  lemma DropSheepFits(s: State, i: Id, asFailure: bool, us: set<TaskId>, limbo: set<Id>, steady: bool)
    requires Inv(s, limbo, steady) && Fit(s, us) && i in s.store && s.store[i].herd != i && Unready(s.store, i)
    requires Unready(s.store, s.store[i].herd) ==> !asFailure
    ensures Fit(DropSheep(s, i, asFailure), us)
  {
    hide *;
    DropSheepLine(s, i, asFailure, limbo, steady);
    DropSheepInv(s, i, asFailure, limbo, steady);
    SameConfig(s, DropSheep(s, i, asFailure), {i});
    FitLine(s, DropSheep(s, i, asFailure), {i}, us);
  }

  lemma CancelFits(s: State, i: Id, act: Answers, us: set<TaskId>, steady: bool)
    requires Inv(s, {}, steady) && Fit(s, us) && i in s.store && CancelAlike(s, i, act) && NoForce(Cancel(s, i))
    ensures Fit(Cancel(s, i), us)
  {
    hide *;
    CancelCases(s, i);
    InvShape(s, {}, steady);
    InstFacts(s, i, {}, steady);
    if Unready(s.store, i) {
      if s.store[i].herd != i {
        DropSheepFits(s, i, false, us, {}, steady);
      } else {
        var t := CancelHerd(s, i);
        HerderOf(s.store, i);
        CancelAlikeCases(s, i, act);
        CancelHerdInv(s, i, {}, steady);
        CancelHerdLine(s, i, {}, steady);
        SameConfig(s, t, {});
        FitLine(s, t, {}, us);
        NobodyInLimbo(t);
        UnreadyIsStoppable(s, t, i, {});
        StopHerderFits(t, i, false, act, us, {}, steady);
      }
    }
  }

  // ---------------------------------------------------------------------------------------------
  // The events
  // ---------------------------------------------------------------------------------------------

  lemma PlanFits(s: State, req: Request, herd: Id, act: Answers, us: set<TaskId>, steady: bool)
    requires Inv(s, {}, steady) && Fit(s, us) && (herd == 0 || IsHerder(s.store, herd))
    requires PlanAlike(s, req, herd, 0, act) && NoForce(Plan(s, req, herd, 0))
    ensures Fit(Plan(s, req, herd, 0), us)
  {
    hide *;
    NobodyInLimbo(s);
    ReadyIs(s, us, {}, steady);
    NothingRequestCloses(s, act);
    PlanHolds(s, req, herd, 0, act, {}, us, {}, steady);
    HoldsIsFit(s, Plan(s, req, herd, 0), {}, us);
  }

  /** What a start comes to, with the answers of its actions. */
  lemma StartAlikeCases(s: State, i: Id, act: Answers)
    requires i in s.store && StatusOf(s.store[i]) == Queued && StartAlike(s, i, act)
    ensures var t := Start(s, i);
            || t == s
            || (s.store[i].herd == i && t == StopHerder(s, i, true) && StopHerderAlike(s, i, act))
            || (s.store[i].herd != i && t == DropSheep(s, i, true))
            || exists h :: MayLaunch(s, i, h) && t == Trigger(Launch(s, i, h), i) && Inside(Launch(s, i, h), i, act)
  {
    hide StopHerder, DropSheep, Launch, Trigger, StatusOf, Candidates, Fits, StopHerderAlike, Inside;
  }

  lemma StartFits(s: State, i: Id, act: Answers, us: set<TaskId>, steady: bool)
    requires Inv(s, {}, steady) && Fit(s, us) && i in s.store && StatusOf(s.store[i]) == Queued
    requires StartAlike(s, i, act) && NoForce(Start(s, i))
    ensures Fit(Start(s, i), us)
  {
    hide *;
    StartAlikeCases(s, i, act);
    InvShape(s, {}, steady);
    QueuedFacts(s, i, {}, steady);
    NobodyInLimbo(s);
    var t := Start(s, i);
    if t == s {
    } else if s.store[i].herd == i && t == StopHerder(s, i, true) && StopHerderAlike(s, i, act) {
      QueuedIsStoppable(s, i);
      StopHerderFits(s, i, true, act, us, {}, steady);
    } else if s.store[i].herd != i && t == DropSheep(s, i, true) {
      SheepHasStartedHerder(s, i, {}, steady);
      DropSheepFits(s, i, true, us, {}, steady);
    } else {
      var h :| MayLaunch(s, i, h) && t == Trigger(Launch(s, i, h), i) && Inside(Launch(s, i, h), i, act);
      LaunchInv(s, i, h, steady);
      LaunchLine(s, i, h);
      LaunchConfig(s, i, h);
      FitLine(s, Launch(s, i, h), {i}, us);
      NobodyInLimbo(Launch(s, i, h));
      InsideFits(Launch(s, i, h), i, act, us, {}, steady);
    }
  }

  lemma StartAllAlikeCases(s: State, ids: seq<Id>, act: Answers)
    requires ids != [] && StartAllAlike(s, ids, act)
    ensures var go := ids[0] in s.store && StatusAt(s, ids[0]) == Queued;
            (go ==> StartAlike(s, ids[0], act)) && StartAllAlike(if go then Start(s, ids[0]) else s, ids[1..], act)
  {
    hide Start, StartAlike, StatusOf;
  }

  lemma {:induction false} StartAllFits(s: State, ids: seq<Id>, act: Answers, us: set<TaskId>, steady: bool)
    requires Inv(s, {}, steady) && Fit(s, us) && StartAllAlike(s, ids, act) && NoForce(StartAll(s, ids))
    ensures Fit(StartAll(s, ids), us)
    decreases |ids|
  {
    hide *;
    if ids == [] {
      StartNobody(s);
    } else {
      StartAllCases(s, ids);
      StartAllAlikeCases(s, ids, act);
      if ids[0] in s.store && StatusAt(s, ids[0]) == Queued {
        var t := Start(s, ids[0]);
        StartKeeps(s, ids[0], steady);
        StartAllKeeps(t, ids[1..], steady);
        FollowsForce(t, StartAll(s, ids));
        StartFits(s, ids[0], act, us, steady);
        StartAllFits(t, ids[1..], act, us, steady);
      } else {
        StartAllFits(s, ids[1..], act, us, steady);
      }
    }
  }

  lemma FollowsForce(s: State, t: State)
    requires Follows(s, t) && NoForce(t)
    ensures NoForce(s)
  {
    hide *;
    FollowsIsProgress(s, t);
    ForceGoesBack(s, t);
  }

  /** What a reevaluation comes to: a planned herder is left alone. */
  lemma ReevaluateAlikeCases(s: State, i: Id, act: Answers)
    requires Shape(s) && i in s.store && ReevaluateAlike(s, i, act)
    requires StatusOf(s.store[i]) == Planned ==> i in s.live
    ensures var t := Reevaluate(s, i);
            || t == s
            || (Guarded(s, i) && t == Enqueue(s, i) && EnqueueAlike(s, i, act) && !IsHerder(s.store, i))
            || (t == Cancel(s, i) && CancelAlike(s, i, act))
  {
    hide Cancel, Enqueue, EnqueueAlike, CancelAlike, C.Holds, Herded, Coherent;
  }

  lemma ReevaluateFits(s: State, i: Id, act: Answers, us: set<TaskId>, steady: bool)
    requires Inv(s, {}, steady) && Fit(s, us) && i in s.store && ReevaluateAlike(s, i, act) && NoForce(Reevaluate(s, i))
    ensures Fit(Reevaluate(s, i), us)
  {
    hide *;
    var t := Reevaluate(s, i);
    InvShape(s, {}, steady);
    PlannedIsLive(s, i, steady);
    ReevaluateAlikeCases(s, i, act);
    if t == s {
    } else if t == Cancel(s, i) && CancelAlike(s, i, act) {
      CancelFits(s, i, act, us, steady);
    } else {
      NobodyInLimbo(s);
      ReadyIs(s, us, {}, steady);
      EnqueueKeeps(s, i, {}, steady);
      ForceBefore(s, t, {i});
      NotForced(s, i);
      NothingCloses(s, act, QueueOf(s.store[i].task, s.store[i].criterion));
      EnqueueHolds(s, i, act, {}, us, {}, steady);
      HoldsIsFit(s, t, {}, us);
    }
  }

  lemma PlannedIsLive(s: State, i: Id, steady: bool)
    requires Herds(s, {}, steady) && i in s.store
    ensures StatusOf(s.store[i]) == Planned ==> i in s.live
  {
    InstFacts(s, i, {}, steady);
    hide Herds, Shape, Coherent;
  }

  lemma ReevaluateAllAlikeCases(s: State, ids: seq<Id>, dirty: set<Id>, act: Answers)
    requires ids != [] && ReevaluateAllAlike(s, ids, dirty, act)
    ensures var go := ids[0] in s.store && Data(s, ids[0]).herd in dirty;
            && (go ==> ReevaluateAlike(s, ids[0], act))
            && ReevaluateAllAlike(if go then Reevaluate(s, ids[0]) else s, ids[1..], dirty, act)
  {
    hide Reevaluate, ReevaluateAlike, Data;
  }

  lemma {:induction false} ReevaluateAllFits(s: State, ids: seq<Id>, dirty: set<Id>, act: Answers, us: set<TaskId>,
                                             steady: bool)
    requires Inv(s, {}, steady) && Fit(s, us) && ReevaluateAllAlike(s, ids, dirty, act)
    requires NoForce(ReevaluateAll(s, ids, dirty))
    ensures Fit(ReevaluateAll(s, ids, dirty), us)
    decreases |ids|
  {
    hide *;
    if ids == [] {
      StartNobody(s);
    } else {
      ReevaluateAllCases(s, ids, dirty);
      ReevaluateAllAlikeCases(s, ids, dirty, act);
      if ids[0] in s.store && Data(s, ids[0]).herd in dirty {
        var t := Reevaluate(s, ids[0]);
        ReevaluateKeeps(s, ids[0], steady);
        ReevaluateAllKeeps(t, ids[1..], dirty, steady);
        FollowsForce(t, ReevaluateAll(s, ids, dirty));
        ReevaluateFits(s, ids[0], act, us, steady);
        ReevaluateAllFits(t, ids[1..], dirty, act, us, steady);
      } else {
        ReevaluateAllFits(s, ids[1..], dirty, act, us, steady);
      }
    }
  }

  lemma StopSheepFits(s: State, i: Id, act: Answers, us: set<TaskId>, steady: bool)
    requires Inv(s, {}, steady) && Fit(s, us) && i in s.store && s.store[i].herd != i && StatusOf(s.store[i]) == Waiting
    requires Inside(Close(s, i, false), i, act) && NoForce(StopSheep(s, i))
    ensures Fit(StopSheep(s, i), us)
  {
    hide *;
    var t := Close(s, i, false);
    var u := Trigger(t, i);
    StopSheepCases(s, i);
    InvShape(s, {}, steady);
    InstFacts(s, i, {}, steady);
    SheepHasStartedHerder(s, i, {}, steady);
    CloseLine(s, i, false);
    CloseSheepInv(s, i, false, {}, steady);
    assert {} + {i} == {i};
    SameConfig(s, t, {i});
    FitLine(s, t, {i}, us);
    StillThere(s, t, {i}, i);
    ClosedIsSettled(s, i);
    TriggerKeeps(t, i, {i}, steady);
    StaysInLimbo(t, u, i, {i}, {});
    InvShape(u, {i}, steady);
    ReleaseLine(u, i, {i}, steady);
    ReleaseInv(u, i, {i}, steady);
    LineForce(u, StopSheep(s, i), {});
    InsideFits(t, i, act, us, {i}, steady);
    SameConfig(u, StopSheep(s, i), {});
    FitLine(u, StopSheep(s, i), {}, us);
  }

  lemma StopAlikeCases(s: State, i: Id, ok: bool, act: Answers)
    requires i in s.busy && StopAlike(s, i, ok, act)
    ensures var t := Vacate(s, i, ok);
            i in t.store ==>
              if t.store[i].herd == i then StopHerderAlike(t, i, act) else Inside(Close(t, i, false), i, act)
  {
    hide StopHerderAlike, Inside, Close;
  }

  lemma StopFits(s: State, i: Id, ok: bool, act: Answers, us: set<TaskId>, steady: bool)
    requires Inv(s, {}, steady) && Fit(s, us) && i in s.busy && StopAlike(s, i, ok, act) && NoForce(Stop(s, i, ok))
    ensures Fit(Stop(s, i, ok), us)
  {
    hide *;
    var t := Vacate(s, i, ok);
    BusyIsRunning(s, i, steady);
    VacateInv(s, i, ok, steady);
    VacateLine(s, i, ok);
    VacateAgain(s, i, ok);
    FitLine(s, t, {}, us);
    StopCases(s, i, ok);
    StopAlikeCases(s, i, ok, act);
    if t.store[i].herd == i {
      HerderSettled(t, i);
      StopHerderFits(t, i, false, act, us, {i}, steady);
    } else {
      StopSheepFits(t, i, act, us, steady);
    }
  }

  lemma AbortFits(s: State, i: Id, us: set<TaskId>, steady: bool)
    requires Inv(s, {}, steady) && Fit(s, us)
    ensures Fit(Abort(s, i), us)
  {
    hide *;
    AbortIs(s, i);
    InvShape(s, {}, steady);
    SheepAreSheep(s, i, {}, steady);
    CancelHerdIs(s, i);
    AllOutOfLine(s, Ascending(Sheep(s, i), s.next), i);
    DropSheepOfLine(s, Ascending(Sheep(s, i), s.next), i, s.store.Keys, {}, steady);
    CancelHerdFollows(s, Ascending(Sheep(s, i), s.next), i, steady);
    FollowsConfig(s, CancelHerd(s, i));
    FitLine(s, CancelHerd(s, i), s.store.Keys, us);
  }

  lemma ReevaluateEventFits(s: State, script: seq<seq<Request>>, act: Answers, us: set<TaskId>, steady: bool)
    requires Inv(s, {}, steady) && Fit(s, us)
    requires var t := s.(script := script, dirty := {});
             && ReevaluateAllAlike(t, Ascending(s.live, s.next), s.dirty, act)
             && NoForce(ReevaluateAll(t, Ascending(s.live, s.next), s.dirty))
    ensures Fit(ReevaluateAll(s.(script := script, dirty := {}), Ascending(s.live, s.next), s.dirty), us)
  {
    var t := s.(script := script, dirty := {});
    assert SameHerds(s, t) && SameBooks(s, t);
    hide *;
    AsideKeeps(s, t, steady);
    SameFit(s, t, us);
    ReevaluateAllFits(t, Ascending(s.live, s.next), s.dirty, act, us, steady);
  }

  lemma StartEventFits(s: State, script: seq<seq<Request>>, act: Answers, us: set<TaskId>, steady: bool)
    requires Inv(s, {}, steady) && Fit(s, us)
    requires var t := s.(script := script);
             StartAllAlike(t, Ascending(s.live, s.next), act) && NoForce(StartAll(t, Ascending(s.live, s.next)))
    ensures Fit(StartAll(s.(script := script), Ascending(s.live, s.next)), us)
  {
    hide *;
    var t := s.(script := script);
    Scripted(s, script, steady);
    SameFit(s, t, us);
    StartAllFits(t, Ascending(s.live, s.next), act, us, steady);
  }

  lemma PlanEventFits(s: State, req: Request, herd: Id, script: seq<seq<Request>>, act: Answers, us: set<TaskId>,
                      steady: bool)
    requires Inv(s, {}, steady) && Fit(s, us) && (herd == 0 || IsHerder(s.store, herd))
    requires var t := s.(script := script); PlanAlike(t, req, herd, 0, act) && NoForce(Plan(t, req, herd, 0))
    ensures Fit(Plan(s.(script := script), req, herd, 0), us)
  {
    hide *;
    var t := s.(script := script);
    Scripted(s, script, steady);
    SameFit(s, t, us);
    assert IsHerder(t.store, herd) == IsHerder(s.store, herd);
    PlanFits(t, req, herd, act, us, steady);
  }

  lemma CancelEventFits(s: State, i: Id, script: seq<seq<Request>>, act: Answers, us: set<TaskId>, steady: bool)
    requires Inv(s, {}, steady) && Fit(s, us) && i in s.live
    requires var t := s.(script := script); CancelAlike(t, i, act) && NoForce(Cancel(t, i))
    ensures Fit(Cancel(s.(script := script), i), us)
  {
    hide *;
    var t := s.(script := script);
    Scripted(s, script, steady);
    SameFit(s, t, us);
    InvShape(s, {}, steady);
    LiveHerderIsKnown(s, i);
    CancelFits(t, i, act, us, steady);
  }

  lemma StopEventFits(s: State, i: Id, ok: bool, script: seq<seq<Request>>, act: Answers, us: set<TaskId>, steady: bool)
    requires Inv(s, {}, steady) && Fit(s, us) && i in s.busy
    requires var t := s.(script := script); StopAlike(t, i, ok, act) && NoForce(Stop(t, i, ok))
    ensures Fit(Stop(s.(script := script), i, ok), us)
  {
    hide *;
    var t := s.(script := script);
    Scripted(s, script, steady);
    SameFit(s, t, us);
    StopFits(t, i, ok, act, us, steady);
  }

  lemma SettingFits(s: State, e: Event, us: set<TaskId>)
    requires Fit(s, us) && (e.EnableEvent? || e.HostsEvent?)
    ensures Fit(Apply(s, e), us)
  {
    SameFit(s, Apply(s, e), us);
    hide Fit, Plan, ReevaluateAll, StartAll, Stop, Cancel, Abort, CancelOrphans, Activate, Ascending;
  }

  lemma ApplyFits(s: State, e: Event, act: Answers, us: set<TaskId>, steady: bool)
    requires Inv(s, {}, steady) && Fit(s, us) && Enabled(s, e) && !e.ReloadEvent? && EventAlike(s, e, act)
    requires NoForce(Apply(s, e))
    ensures Fit(Apply(s, e), us)
  {
    hide Inv, Fit, NoForce, Plan, ReevaluateAll, StartAll, Stop, Cancel, Abort, CancelOrphans, Activate, Ascending,
         PlanAlike, ReevaluateAllAlike, StartAllAlike, StopAlike, CancelAlike, Data;
    match e {
      case PlanEvent(req, herd, script) =>
        HerdOfEvent(s, req, herd, script);
        PlanEventFits(s, req, herd, script, act, us, steady);
      case ReevaluateEvent(script) => ReevaluateEventFits(s, script, act, us, steady);
      case StartEvent(script) => StartEventFits(s, script, act, us, steady);
      case StopEvent(i, ok, script) => StopEventFits(s, i, ok, script, act, us, steady);
      case CancelEvent(i, script) =>
        if i in s.live {
          CancelEventFits(s, i, script, act, us, steady);
        }
      case AbortEvent(i) => AbortFits(s, i, us, steady);
      case EnableEvent(_, _) => SettingFits(s, e, us);
      case HostsEvent(_, _) => SettingFits(s, e, us);
      case ReloadEvent(_, _) =>
    }
  }

  lemma AlikeCases(s: State, events: seq<Event>)
    requires Possible(s, events) && Alike(s, events) && events != []
    ensures Enabled(s, events[0]) && Possible(Apply(s, events[0]), events[1..])
    ensures !events[0].ReloadEvent? && (exists act :: EventAlike(s, events[0], act))
    ensures Alike(Apply(s, events[0]), events[1..]) && After(s, events) == After(Apply(s, events[0]), events[1..])
  {
    hide Apply, EventAlike, Enabled;
  }

  lemma {:induction false} RunFits(s: State, events: seq<Event>, us: set<TaskId>)
    requires Inv(s, {}, false) && Fit(s, us) && Possible(s, events) && Alike(s, events) && NoForce(After(s, events))
    ensures Fit(After(s, events), us)
    decreases |events|
  {
    if events != [] {
      hide *;
      AlikeCases(s, events);
      var t := Apply(s, events[0]);
      var act :| EventAlike(s, events[0], act);
      ApplyKeeps(s, events[0], false);
      RunKeeps(t, events[1..], false);
      ForceGoesBack(t, After(s, events));
      ApplyFits(s, events[0], act, us, false);
      RunFits(t, events[1..], us);
    }
  }

  /** In a run whose actions answer alike, without reloads and forced instances, a task that keeps the
      last instances and does not wait for sheep never has more queued duplicates than it allows. */
  lemma WithinLimitAlike(cfg: Config, up: set<HostId>, order: map<string, seq<HostId>>, events: seq<Event>,
                         task: TaskId, criterion: string)
    requires KeepsLast(cfg, task) && cfg.tasks[task].policy == NoWait
    requires Possible(Initial(cfg, up, order), events) && Alike(Initial(cfg, up, order), events)
    requires NoForce(After(Initial(cfg, up, order), events))
    ensures |Kin(After(Initial(cfg, up, order), events).store, task, criterion)| <= cfg.tasks[task].maxQueued
  {
    var s := Initial(cfg, up, order);
    assert Fit(s, {task}) by {
      assert forall c :: Kin(s.store, task, c) == {};
    }
    hide *;
    InitialInv(cfg, up, order, false);
    RunFits(s, events, {task});
    InitialConfig(cfg, up, order);
    AlikeConfig(s, events);
    FitIs(After(s, events), task, criterion);
  }

  lemma InitialConfig(cfg: Config, up: set<HostId>, order: map<string, seq<HostId>>)
    ensures Initial(cfg, up, order).cfg == cfg
  {
  }

  lemma FitIs(s: State, task: TaskId, criterion: string)
    requires Fit(s, {task})
    ensures KeepsLast(s.cfg, task) && |Kin(s.store, task, criterion)| <= s.cfg.tasks[task].maxQueued
  {
    hide Kin;
  }

  lemma {:induction false} AlikeConfig(s: State, events: seq<Event>)
    requires Inv(s, {}, false) && Possible(s, events) && Alike(s, events)
    ensures After(s, events).cfg == s.cfg
    decreases |events|
  {
    if events != [] {
      AlikeCases(s, events);
      EventConfig(s, events[0]);
      hide *;
      ApplyKeeps(s, events[0], false);
      AlikeConfig(Apply(s, events[0]), events[1..]);
    }
  }
}
