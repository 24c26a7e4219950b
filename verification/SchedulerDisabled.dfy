/** Disabled tasks: nothing of them starts until they are enabled again. */
module SchedulerDisabled {
  import opened TaskStatus
  import opened SchedulerModel
  import opened SchedulerInvariants
  import opened SchedulerHerds
  import opened SchedulerBooks
  import opened SchedulerSteps
  import opened SchedulerActions
  import opened SchedulerRuns
  import opened SchedulerTheorems
  import opened SchedulerQueue
  import opened SchedulerAgain
  import opened SchedulerLines
  import opened SchedulerTwice
  import opened SchedulerSheep
  import opened SchedulerStart
  import opened SchedulerEnds
  import opened SchedulerMarks

  /** A sheep of a disabled task is canceled when its wait is over, unless it is forced. */
  lemma DisabledIsCanceled(s: State, i: Id, limbo: set<Id>, steady: bool)
    requires Inv(s, limbo, steady) && Guarded(s, i) && i in s.store && s.store[i].herd != i
    requires !s.store[i].force && s.store[i].task !in s.enabled
    ensures i in Enqueue(s, i).store && Done(Enqueue(s, i).store, i)
  {
    hide *;
    EnqueueCases(s, i);
    DataIs(s, i);
    PlannedIsUnready(s, i);
    SheepEnds(s, i, limbo, steady);
  }

  // ---------------------------------------------------------------------------------------------
  // Nothing starts
  // ---------------------------------------------------------------------------------------------

  predicate Disabled(s: State, task: TaskId) {
    task in s.cfg.tasks && task !in s.enabled
  }

  /** A task is disabled, and of its instances none runs that did not run before. */
  ghost predicate Pauses(s: State, t: State, task: TaskId) {
    && Disabled(t, task) && Progress(s, t)
    && forall i <- t.busy :: i in s.busy || (i in t.store && t.store[i].task != task)
  }

  lemma RestsTrans(s: State, t: State, u: State, task: TaskId)
    requires Pauses(s, t, task) && Pauses(t, u, task)
    ensures Pauses(s, u, task)
  {
    ProgressTrans(s, t, u);
    assert forall i <- t.store :: i in u.store && u.store[i].task == t.store[i].task by { hide StatusOf; }
    hide Progress;
  }

  lemma LaterPauses(s: State, t: State, task: TaskId, except: set<Id>)
    requires Later(s, t, except) && Disabled(s, task)
    ensures Pauses(s, t, task)
  {
    LaterIsProgress(s, t, except);
    hide Progress, Evolves, Guarded, OnlyNewIds;
  }

  lemma SamePauses(s: State, t: State, task: TaskId)
    requires t.store == s.store && t.live <= s.live && s.next <= t.next && t.busy.Keys <= s.busy.Keys
    requires Disabled(t, task)
    ensures Pauses(s, t, task)
  {
    ProgressSame(s, t);
    hide Progress;
  }

  lemma LaunchPauses(s: State, i: Id, h: HostId, task: TaskId)
    requires Inv(s, {}, false) && MayLaunch(s, i, h) && MayRun(s, i) && Disabled(s, task)
    ensures Pauses(s, Launch(s, i, h), task)
  {
    LaunchInv(s, i, h, false);
    FollowsIsProgress(s, Launch(s, i, h));
    LaunchHires(s, i, h);
    hide Inv, Progress, Follows, StatusOf, Launch, MayLaunch, MayRun;
  }

  lemma LaunchHires(s: State, i: Id, h: HostId)
    requires MayLaunch(s, i, h) && MayRun(s, i)
    ensures var t := Launch(s, i, h);
            && t.cfg == s.cfg && t.enabled == s.enabled && t.busy.Keys == s.busy.Keys + {i}
            && i in t.store && t.store[i].task in s.enabled
  {
    hide Charged, ResourcesOf, Suits;
  }

  lemma StartPauses(s: State, i: Id, task: TaskId)
    requires Inv(s, {}, false) && i in s.store && StatusOf(s.store[i]) == Queued && Disabled(s, task)
    ensures Pauses(s, Start(s, i), task)
  {
    hide *;
    var t := Start(s, i);
    StartIs(s, i);
    InvShape(s, {}, false);
    QueuedFacts(s, i, {}, false);
    if t == s {
      SamePauses(s, s, task);
    } else if h :| MayRun(s, i) && FirstFor(s, i, h) && t == Trigger(Launch(s, i, h), i) {
      var u := Launch(s, i, h);
      FirstMayLaunch(s, i, h);
      LaunchInv(s, i, h, false);
      LaunchPauses(s, i, h, task);
      RestsIs(s, u, task);
      TriggerKeeps(u, i, {}, false);
      LaterPauses(u, t, task, {});
      RestsTrans(s, u, t, task);
    } else if s.store[i].herd == i {
      QueuedIsStoppable(s, i);
      StopHerderKeeps(s, i, true, {}, false);
      LaterPauses(s, t, task, {i});
    } else {
      SheepHasStartedHerder(s, i, {}, false);
      DropSheepInv(s, i, true, {}, false);
      LaterPauses(s, t, task, {i});
    }
  }

  lemma RestsIs(s: State, t: State, task: TaskId)
    requires Pauses(s, t, task)
    ensures Disabled(t, task)
  {
    hide Progress, Disabled;
  }

  lemma {:induction false} StartAllPauses(s: State, ids: seq<Id>, task: TaskId)
    requires Inv(s, {}, false) && Disabled(s, task)
    ensures Pauses(s, StartAll(s, ids), task)
    decreases |ids|
  {
    hide *;
    SamePauses(s, s, task);
    if ids == [] {
      StartNobody(s);
    } else {
      StartAllCases(s, ids);
      if ids[0] in s.store && StatusAt(s, ids[0]) == Queued {
        var t := Start(s, ids[0]);
        StatusIs(s, ids[0]);
        StartPauses(s, ids[0], task);
        StartKeeps(s, ids[0], false);
        RestsIs(s, t, task);
        StartAllPauses(t, ids[1..], task);
        RestsTrans(s, t, StartAll(s, ids), task);
      } else {
        StartAllPauses(s, ids[1..], task);
      }
    }
  }

  lemma {:induction false} ReevaluateAllPauses(s: State, ids: seq<Id>, dirty: set<Id>, task: TaskId)
    requires Inv(s, {}, false) && Disabled(s, task)
    ensures Pauses(s, ReevaluateAll(s, ids, dirty), task)
    decreases |ids|
  {
    hide *;
    SamePauses(s, s, task);
    if ids == [] {
      StartNobody(s);
    } else {
      ReevaluateAllCases(s, ids, dirty);
      if ids[0] in s.store && Data(s, ids[0]).herd in dirty {
        var t := Reevaluate(s, ids[0]);
        ReevaluateKeeps(s, ids[0], false);
        ReevaluateLater(s, ids[0], false);
        LaterPauses(s, t, task, {ids[0]});
        RestsIs(s, t, task);
        ReevaluateAllPauses(t, ids[1..], dirty, task);
        RestsTrans(s, t, ReevaluateAll(s, ids, dirty), task);
      } else {
        ReevaluateAllPauses(s, ids[1..], dirty, task);
      }
    }
  }

  lemma {:induction false} CancelOrphansPauses(s: State, ids: seq<Id>, task: TaskId)
    requires Inv(s, {}, false) && Disabled(s, task)
    ensures Pauses(s, CancelOrphans(s, ids), task)
    decreases |ids|
  {
    assert ids != [] && Cancelable(s, ids[0]) ==> ids[0] in s.store;
    hide *;
    SamePauses(s, s, task);
    StartNobody(s);
    if ids != [] {
      OrphansCases(s, ids);
      if Cancelable(s, ids[0]) && Data(s, ids[0]).task !in s.cfg.tasks {
        var t := Cancel(s, ids[0]);
        CancelKeeps(s, ids[0], {}, false);
        LaterPauses(s, t, task, {ids[0]});
        RestsIs(s, t, task);
        CancelOrphansPauses(t, ids[1..], task);
        RestsTrans(s, t, CancelOrphans(s, ids), task);
      } else {
        CancelOrphansPauses(s, ids[1..], task);
      }
    }
  }

  lemma {:induction false} DropSheepOfPauses(s: State, ids: seq<Id>, h: Id, task: TaskId)
    requires Inv(s, {}, false) && AreSheep(s, ids, h) && Disabled(s, task)
    ensures Pauses(s, DropSheepOf(s, ids), task)
    decreases |ids|
  {
    hide *;
    SamePauses(s, s, task);
    DropSheepOfCases(s, ids);
    if ids != [] {
      SheepRest(s, ids, h);
      if Cancelable(s, ids[0]) {
        var t := DropSheep(s, ids[0], false);
        DropSheepInv(s, ids[0], false, {}, false);
        SheepStay(s, t, ids[1..], h, {ids[0]});
        LaterPauses(s, t, task, {ids[0]});
        RestsIs(s, t, task);
        DropSheepOfPauses(t, ids[1..], h, task);
        RestsTrans(s, t, DropSheepOf(s, ids), task);
      } else {
        DropSheepOfPauses(s, ids[1..], h, task);
      }
    }
  }

  lemma StopPauses(s: State, i: Id, ok: bool, task: TaskId)
    requires Inv(s, {}, false) && i in s.busy && i in s.store && Disabled(s, task)
    ensures Pauses(s, Stop(s, i, ok), task)
  {
    hide *;
    var t := Vacate(s, i, ok);
    VacateInv(s, i, ok, false);
    VacatePauses(s, i, ok, task);
    StopCases(s, i, ok);
    RestsIs(s, t, task);
    if t.store[i].herd == i {
      StopHerderKeeps(t, i, false, {i}, false);
    } else {
      StopSheepKeeps(t, i, false);
    }
    LaterPauses(t, Stop(s, i, ok), task, {i});
    RestsTrans(s, t, Stop(s, i, ok), task);
  }

  lemma VacatePauses(s: State, i: Id, ok: bool, task: TaskId)
    requires i in s.busy && Follows(s, Vacate(s, i, ok)) && Disabled(s, task)
    ensures Pauses(s, Vacate(s, i, ok), task)
  {
    FollowsIsProgress(s, Vacate(s, i, ok));
    hide Progress, Follows;
  }

  lemma ScriptedPauses(s: State, script: seq<seq<Request>>, task: TaskId)
    requires Disabled(s, task)
    ensures Disabled(s.(script := script), task) && Pauses(s, s.(script := script), task)
    ensures Pauses(s, s.(script := script, dirty := {}), task)
  {
    hide Pauses;
    SamePauses(s, s.(script := script), task);
    SamePauses(s, s.(script := script, dirty := {}), task);
  }

  lemma ReloadPauses(s: State, cfg: Config, script: seq<seq<Request>>, task: TaskId)
    requires Inv(s, {}, false) && Disabled(s, task) && task in cfg.tasks
    ensures Pauses(s, Apply(s, ReloadEvent(cfg, script)), task)
  {
    hide *;
    var t := s.(script := script);
    var u := Activate(t, cfg);
    ReloadIs(s, cfg, script);
    Scripted(s, script, false);
    ScriptedPauses(s, script, task);
    ActivateKeeps(t, cfg, false);
    StillDisabled(t, cfg, task);
    SamePauses(s, u, task);
    CancelOrphansPauses(u, Ascending(s.live, s.next), task);
    RestsTrans(s, u, CancelOrphans(u, Ascending(s.live, s.next)), task);
  }

  lemma StillDisabled(s: State, cfg: Config, task: TaskId)
    requires Disabled(s, task) && task in cfg.tasks
    ensures var u := Activate(s, cfg);
            && Disabled(u, task) && u.store == s.store && u.live == s.live && u.next == s.next && u.busy == s.busy
  {
    ActivatedIs(s, cfg);
    ActivateEffect(s, cfg);
    hide Activate;
  }

  /** No event but its enabling, or a reload without it, can make a disabled task other than disabled. */
  predicate Spares(e: Event, task: TaskId) {
    e != EnableEvent(task, true) && (e.ReloadEvent? ==> task in e.cfg.tasks)
  }

  lemma PlanPauses(s: State, req: Request, herd: Id, script: seq<seq<Request>>, task: TaskId)
    requires Inv(s, {}, false) && Disabled(s, task) && (herd == 0 || IsHerder(s.store, herd))
    ensures Pauses(s, Plan(s.(script := script), req, herd, 0), task)
  {
    hide *;
    var t := s.(script := script);
    Scripted(s, script, false);
    ScriptedPauses(s, script, task);
    assert IsHerder(t.store, herd) == IsHerder(s.store, herd);
    PlanKeeps(t, req, herd, 0, {}, false);
    LaterPauses(t, Plan(t, req, herd, 0), task, {});
    RestsTrans(s, t, Plan(t, req, herd, 0), task);
  }

  lemma CancelPauses(s: State, i: Id, script: seq<seq<Request>>, task: TaskId)
    requires Inv(s, {}, false) && Disabled(s, task) && i in s.live
    ensures Pauses(s, Cancel(s.(script := script), i), task)
  {
    hide *;
    var t := s.(script := script);
    Scripted(s, script, false);
    ScriptedPauses(s, script, task);
    InvShape(s, {}, false);
    LiveHerderIsKnown(s, i);
    CancelKeeps(t, i, {}, false);
    LaterPauses(t, Cancel(t, i), task, {i});
    RestsTrans(s, t, Cancel(t, i), task);
  }

  lemma AbortPauses(s: State, i: Id, task: TaskId)
    requires Inv(s, {}, false) && Disabled(s, task)
    ensures Pauses(s, Abort(s, i), task)
  {
    hide *;
    AbortIs(s, i);
    SamePauses(s, s, task);
    CancelHerdIs(s, i);
    InvShape(s, {}, false);
    SheepAreSheep(s, i, {}, false);
    DropSheepOfPauses(s, Ascending(Sheep(s, i), s.next), i, task);
  }

  lemma ReevaluateEventPauses(s: State, script: seq<seq<Request>>, task: TaskId)
    requires Inv(s, {}, false) && Disabled(s, task)
    ensures Pauses(s, Apply(s, ReevaluateEvent(script)), task)
  {
    assert Enabled(s, ReevaluateEvent(script));
    hide *;
    var t := s.(script := script, dirty := {});
    NothingElse(s, script);
    StartEventIs(s, script);
    AsideKeeps(s, t, false);
    ScriptedPauses(s, script, task);
    RestsIs(s, t, task);
    ReevaluateAllPauses(t, Ascending(s.live, s.next), s.dirty, task);
    RestsTrans(s, t, Apply(s, ReevaluateEvent(script)), task);
  }

  lemma StartEventPauses(s: State, script: seq<seq<Request>>, task: TaskId)
    requires Inv(s, {}, false) && Disabled(s, task)
    ensures Pauses(s, Apply(s, StartEvent(script)), task)
  {
    assert Enabled(s, StartEvent(script));
    hide *;
    var t := s.(script := script);
    StartEventIs(s, script);
    Scripted(s, script, false);
    ScriptedPauses(s, script, task);
    StartAllPauses(t, Ascending(s.live, s.next), task);
    RestsTrans(s, t, Apply(s, StartEvent(script)), task);
  }

  lemma StopEventPauses(s: State, i: Id, ok: bool, script: seq<seq<Request>>, task: TaskId)
    requires Inv(s, {}, false) && Disabled(s, task) && i in s.busy && i in s.store
    ensures Pauses(s, Apply(s, StopEvent(i, ok, script)), task)
  {
    hide *;
    var t := s.(script := script);
    StopIs(s, i, ok, script);
    Scripted(s, script, false);
    ScriptedPauses(s, script, task);
    StopPauses(t, i, ok, task);
    RestsTrans(s, t, Stop(t, i, ok), task);
  }

  lemma SettingPauses(s: State, other: TaskId, on: bool, up: set<HostId>, order: map<string, seq<HostId>>, task: TaskId)
    requires Disabled(s, task)
    ensures Pauses(s, Apply(s, HostsEvent(up, order)), task)
    ensures other != task || !on ==> Pauses(s, Apply(s, EnableEvent(other, on)), task)
  {
    assert Enabled(s, HostsEvent(up, order)) && Enabled(s, EnableEvent(other, on));
    hide *;
    SettingSame(s, other, on, up, order, task);
    var t := s.(up := up, order := order);
    StillDisabledAside(s, t, task);
    SamePauses(s, t, task);
    if other != task || !on {
      SamePauses(s, Apply(s, EnableEvent(other, on)), task);
    }
  }

  lemma StillDisabledAside(s: State, t: State, task: TaskId)
    requires Disabled(s, task) && t == s.(up := t.up, order := t.order)
    ensures Disabled(t, task)
  {
  }

  lemma SettingSame(s: State, other: TaskId, on: bool, up: set<HostId>, order: map<string, seq<HostId>>, task: TaskId)
    requires Disabled(s, task)
    ensures Apply(s, HostsEvent(up, order)) == s.(up := up, order := order)
    ensures var t := Apply(s, EnableEvent(other, on));
            t == s.(enabled := t.enabled) && (Disabled(t, task) || (other == task && on))
  {
    hide Plan, ReevaluateAll, StartAll, Stop, Cancel, Abort, CancelOrphans, Activate, Ascending;
  }

  lemma EventPauses(s: State, e: Event, task: TaskId)
    requires Inv(s, {}, false) && Enabled(s, e) && Disabled(s, task) && Spares(e, task)
    ensures Pauses(s, Apply(s, e), task)
  {
    hide Inv, Plan, ReevaluateAll, StartAll, Stop, Cancel, Abort, CancelOrphans, Activate, Ascending, Pauses, Data;
    match e {
      case PlanEvent(req, herd, script) =>
        HerdIsHerder(s, req, herd, script);
        PlanPauses(s, req, herd, script, task);
      case ReevaluateEvent(script) => ReevaluateEventPauses(s, script, task);
      case StartEvent(script) => StartEventPauses(s, script, task);
      case StopEvent(i, ok, script) => StopEventPauses(s, i, ok, script, task);
      case CancelEvent(i, script) =>
        SamePauses(s, s, task);
        if i in s.live {
          CancelPauses(s, i, script, task);
        }
      case AbortEvent(i) =>
        SamePauses(s, s, task);
        AbortPauses(s, i, task);
      case EnableEvent(other, on) => SettingPauses(s, other, on, s.up, s.order, task);
      case HostsEvent(up, order) => SettingPauses(s, task, true, up, order, task);
      case ReloadEvent(cfg, script) => ReloadPauses(s, cfg, script, task);
    }
  }

  lemma {:induction false} RunPauses(s: State, events: seq<Event>, task: TaskId)
    requires Inv(s, {}, false) && Possible(s, events) && Disabled(s, task) && forall e <- events :: Spares(e, task)
    ensures Pauses(s, After(s, events), task)
    decreases |events|
  {
    hide Inv, Apply, Enabled, Pauses, Spares, Disabled;
    if events == [] {
      SamePauses(s, s, task);
    } else {
      var t := Apply(s, events[0]);
      assert events[0] in events && forall e <- events[1..] :: e in events;
      EventPauses(s, events[0], task);
      RestsIs(s, t, task);
      ApplyKeeps(s, events[0], false);
      RunPauses(t, events[1..], task);
      RestsTrans(s, t, After(s, events), task);
    }
  }

  /** Once a task is disabled, none of its instances starts, forced or not, whatever happens and however
      often the configuration is reloaded, until it is enabled again. Those that run may go on. */
  lemma NothingStartsWhileDisabled(s: State, task: TaskId, events: seq<Event>, i: Id)
    requires Reached(s, false) && task in s.cfg.tasks
    requires Possible(s, [EnableEvent(task, false)] + events) && forall e <- events :: Spares(e, task)
    ensures var t := After(s, [EnableEvent(task, false)] + events);
            && task !in t.enabled
            && (i in t.store && t.store[i].task == task && StatusOf(t.store[i]) == Running ==>
                  i in s.store && StatusOf(s.store[i]) == Running)
  {
    var all := [EnableEvent(task, false)] + events;
    var t := Apply(s, EnableEvent(task, false));
    assert all[0] == EnableEvent(task, false) && all[1..] == events;
    assert t == s.(enabled := s.enabled - {task});
    assert Disabled(t, task) && Possible(t, events) && After(s, all) == After(t, events);
    hide *;
    ReachedInv(s, false);
    ApplyKeeps(s, EnableEvent(task, false), false);
    RunPauses(t, events, task);
    RestsIs(t, After(t, events), task);
    RunKeeps(t, events, false);
    DisabledIs(After(t, events), task);
    if i in After(t, events).store && After(t, events).store[i].task == task {
      RanBefore(t, After(t, events), task, i);
    }
  }

  lemma DisabledIs(s: State, task: TaskId)
    requires Disabled(s, task)
    ensures task !in s.enabled
  {
  }

  lemma RanBefore(s: State, t: State, task: TaskId, i: Id)
    requires Pauses(s, t, task) && Inv(s, {}, false) && Inv(t, {}, false)
    requires i in t.store && t.store[i].task == task
    ensures StatusOf(t.store[i]) == Running ==> i in s.store && StatusOf(s.store[i]) == Running
  {
    assert Staffed(s) && Staffed(t);
    hide Inv, Progress, StatusOf;
  }

  /** A slot and an executor, unless it is forced. */
  ghost predicate HasRoom(s: State, i: Id) {
    && i in s.store && s.store[i].task in s.cfg.tasks
    && (s.store[i].force
        || (s.idle != [] && Get(s.count, s.store[i].task, 0) < s.cfg.tasks[s.store[i].task].maxInstances))
  }

  /** Once it is enabled again, a queued instance that needs nothing but this starts. */
  lemma EnabledAgainItStarts(s: State, i: Id, h: HostId)
    requires Inv(s, {}, false) && i in s.store && StatusOf(s.store[i]) == Queued && HasRoom(s, i) && FirstFor(s, i, h)
    ensures var t := Start(Apply(s, EnableEvent(s.store[i].task, true)), i);
            i in t.store && StatusOf(t.store[i]) == Running && t.store[i].target == h
  {
    hide *;
    var t := s.(enabled := s.enabled + {s.store[i].task});
    EnabledAgain(s, i, h);
    ApplyKeeps(s, EnableEvent(s.store[i].task, true), false);
    StartIs(t, i);
    FirstMayLaunch(t, i, h);
    var g :| FirstFor(t, i, g) && Start(t, i) == Trigger(Launch(t, i, g), i);
    OneFirst(t, i, g, h);
    LaunchedRuns(t, i, h, false);
  }

  lemma EnabledAgain(s: State, i: Id, h: HostId)
    requires HasRoom(s, i) && FirstFor(s, i, h)
    ensures var t := s.(enabled := s.enabled + {s.store[i].task});
            && Enabled(s, EnableEvent(s.store[i].task, true)) && Apply(s, EnableEvent(s.store[i].task, true)) == t
            && MayRun(t, i) && FirstFor(t, i, h)
  {
    FirstForAside(s, s.(enabled := s.enabled + {s.store[i].task}), i, h);
    hide FirstFor;
  }

  lemma FirstForAside(s: State, t: State, i: Id, h: HostId)
    requires FirstFor(s, i, h) && t == s.(enabled := t.enabled)
    ensures FirstFor(t, i, h)
  {
    var task := s.cfg.tasks[s.store[i].task];
    var hosts := HostsOf(s, task.target);
    assert HostsOf(t, task.target) == hosts;
    assert forall k :: 0 <= k < |hosts| ==>
        Suits(t, hosts[k], task.resources, s.store[i].force) == Suits(s, hosts[k], task.resources, s.store[i].force);
    hide Suits, HostsOf;
  }
}
