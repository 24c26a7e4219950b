/** Forced instances come in through forced requests only. */
module SchedulerForce {
  import opened TaskStatus
  import opened SchedulerModel
  import opened SchedulerInvariants
  import opened SchedulerHerds
  import opened SchedulerBooks
  import opened SchedulerSteps
  import opened SchedulerActions
  import opened SchedulerRuns
  import opened SchedulerTheorems
  import opened SchedulerQueue
  import opened SchedulerLines

  predicate ForcesNothing(script: seq<seq<Request>>) {
    forall reqs <- script, r <- reqs :: !r.force
  }

  /** No instance is forced, nor any that the actions still to be triggered ask for. */
  ghost predicate Meek(s: State) {
    NoForce(s) && ForcesNothing(s.script)
  }

  lemma MeekParts(s: State)
    ensures Meek(s) <==> NoForce(s) && ForcesNothing(s.script)
  {
    hide NoForce, ForcesNothing;
  }

  lemma MeekLine(s: State, t: State, gone: set<Id>)
    requires Meek(s) && KeepsLine(s.store, t.store, gone) && t.script == s.script
    ensures Meek(t)
  {
    hide *;
    MeekParts(s);
    MeekParts(t);
    LineForce(s, t, gone);
  }

  lemma MeekSame(s: State, t: State)
    requires Meek(s) && t.store == s.store && t.script == s.script
    ensures Meek(t)
  {
    hide *;
    LineItself(s.store);
    MeekLine(s, t, {});
  }

  lemma MeekRest(s: State)
    requires Meek(s) && s.script != []
    ensures Meek(s.(script := s.script[1..])) && forall r <- s.script[0] :: !r.force
  {
    assert s.script[0] in s.script && forall reqs <- s.script[1..] :: reqs in s.script;
  }

  // ---------------------------------------------------------------------------------------------
  // The steps
  // ---------------------------------------------------------------------------------------------

  lemma {:induction false} PlanAllMeek(s: State, reqs: seq<Request>, i: Id, limbo: set<Id>, steady: bool)
    requires Inv(s, limbo, steady) && i in s.store && Meek(s) && forall r <- reqs :: !r.force
    ensures Meek(PlanAll(s, reqs, i))
    decreases |s.script|, 7, |reqs|
  {
    hide *;
    PlanAllCases(s, reqs, i);
    if reqs != [] {
      var herd := HerdFor(s, reqs[0], i);
      var t := Plan(s, reqs[0], herd, i);
      assert reqs[0] in reqs && forall r <- reqs[1..] :: r in reqs;
      InvShape(s, limbo, steady);
      PlanHerd(s, reqs[0], i, limbo, steady);
      PlanKeeps(s, reqs[0], herd, i, limbo, steady);
      StillThere(s, t, {}, i);
      PlanMeek(s, reqs[0], herd, i, limbo, steady);
      PlanAllMeek(t, reqs[1..], i, limbo, steady);
    }
  }

  lemma {:induction false} TriggerMeek(s: State, i: Id, limbo: set<Id>, steady: bool)
    requires Inv(s, limbo, steady) && i in s.store && Meek(s)
    ensures Meek(Trigger(s, i))
    decreases |s.script|, 0, 0
  {
    hide *;
    TriggerCases(s, i);
    if s.script != [] {
      ScriptIsAside(s, s.script[1..], limbo, steady);
      MeekRest(s);
      PlanAllMeek(s.(script := s.script[1..]), s.script[0], i, limbo, steady);
    }
  }

  lemma InsertMeek(s: State, req: Request, herd: Id, parent: Id)
    requires Shape(s) && (herd == 0 || IsHerder(s.store, herd)) && Meek(s) && !req.force
    ensures Meek(Insert(s, req, herd, parent))
  {
    hide *;
    var t := Insert(s, req, herd, parent);
    InsertForce(s, req, herd, parent);
    MeekParts(s);
    MeekParts(t);
  }

  lemma {:induction false} PlanMeek(s: State, req: Request, herd: Id, parent: Id, limbo: set<Id>, steady: bool)
    requires Inv(s, limbo, steady) && (herd == 0 || IsHerder(s.store, herd)) && Meek(s) && !req.force
    ensures Meek(Plan(s, req, herd, parent))
    decreases |s.script|, 6, 0
  {
    hide *;
    PlanCases(s, req, herd, parent);
    if req.task in s.cfg.tasks && req.task in s.enabled {
      var t := Insert(s, req, herd, parent);
      var u := Trigger(t, s.next);
      InvShape(s, limbo, steady);
      NewIsGuarded(s, req, herd, parent);
      InsertInv(s, req, herd, parent, limbo, steady);
      InsertMeek(s, req, herd, parent);
      TriggerMeek(t, s.next, limbo, steady);
      TriggerKeeps(t, s.next, limbo, steady);
      if herd in s.live && herd in s.store {
        SoilScript(u, herd);
        MeekSame(u, Soil(u, herd));
      } else {
        LiveHerderIsKnown(s, herd);
        InvShape(t, limbo, steady);
        GuardedStays(t, u, {}, s.next);
        EnqueueMeek(u, s.next, limbo, steady);
      }
    }
  }

  lemma SoilScript(s: State, h: Id)
    ensures Soil(s, h).store == s.store && Soil(s, h).script == s.script
  {
  }

  lemma AdmitMeek(s: State, i: Id)
    requires i in s.store && Meek(s)
    ensures Meek(Admit(s, i))
  {
    hide *;
    AdmitForce(s, i);
    MeekParts(s);
    MeekParts(Admit(s, i));
  }

  lemma {:induction false} EnqueueMeek(s: State, i: Id, limbo: set<Id>, steady: bool)
    requires Inv(s, limbo, steady) && Guarded(s, i) && Meek(s)
    ensures Meek(Enqueue(s, i))
    decreases |s.script|, 5, 0
  {
    hide *;
    EnqueueCases(s, i);
    PlannedIsUnready(s, i);
    AdmitMeek(s, i);
    if !Data(s, i).force && Data(s, i).task !in s.enabled {
      CancelMeek(s, i, limbo, steady);
    } else if !Data(s, i).force && MaxQueued(s, i) != 0 {
      var surplus := Surplus(Duplicates(s, i), MaxQueued(s, i), KeepLast(s, i));
      var except := if i in surplus then {i} else {};
      SurplusCancels(s, i);
      CancelAllKeeps(s, surplus, except, limbo, steady);
      CancelAllMeek(s, surplus, except, limbo, steady);
      StillThere(s, CancelAll(s, surplus), except, i);
      AdmitMeek(CancelAll(s, surplus), i);
    }
  }

  lemma {:induction false} CancelAllMeek(s: State, ids: seq<Id>, except: set<Id>, limbo: set<Id>, steady: bool)
    requires Inv(s, limbo, steady) && Cancels(s, ids, except) && Meek(s)
    ensures Meek(CancelAll(s, ids))
    decreases |s.script|, 4, |ids|
  {
    hide *;
    CancelAllCases(s, ids);
    if ids != [] {
      var t := Cancel(s, ids[0]);
      FirstCancels(s, ids, except);
      CancelKeeps(s, ids[0], limbo, steady);
      CancelsStays(s, t, ids, except, {ids[0]});
      CancelMeek(s, ids[0], limbo, steady);
      CancelAllMeek(t, ids[1..], except, limbo, steady);
    }
  }

  lemma {:induction false} CancelMeek(s: State, i: Id, limbo: set<Id>, steady: bool)
    requires Inv(s, limbo, steady) && i in s.store && Meek(s)
    ensures Meek(Cancel(s, i))
    decreases |s.script|, 3, 0
  {
    hide *;
    CancelCases(s, i);
    InvShape(s, limbo, steady);
    if Unready(s.store, i) {
      if s.store[i].herd != i {
        DropSheepMeek(s, i, false, limbo, steady);
      } else {
        var t := CancelHerd(s, i);
        HerderOf(s.store, i);
        InstFacts(s, i, limbo, steady);
        CancelHerdInv(s, i, limbo, steady);
        CancelHerdLine(s, i, limbo, steady);
        MeekLine(s, t, {});
        UnreadyIsStoppable(s, t, i, limbo);
        StopHerderMeek(t, i, false, limbo, steady);
      }
    }
  }

  lemma DropSheepMeek(s: State, i: Id, asFailure: bool, limbo: set<Id>, steady: bool)
    requires Inv(s, limbo, steady) && i in s.store && s.store[i].herd != i && Unready(s.store, i) && Meek(s)
    requires Unready(s.store, s.store[i].herd) ==> !asFailure
    ensures Meek(DropSheep(s, i, asFailure))
  {
    hide *;
    DropSheepLine(s, i, asFailure, limbo, steady);
    MeekLine(s, DropSheep(s, i, asFailure), {i});
  }

  lemma {:induction false} StopHerderMeek(s: State, h: Id, asFailure: bool, limbo: set<Id>, steady: bool)
    requires Inv(s, limbo, steady) && Stoppable(s, h, limbo) && Meek(s)
    ensures Meek(StopHerder(s, h, asFailure))
    decreases |s.script|, 2, 0
  {
    hide *;
    var w := Watch(s, h);
    var t := Trigger(w, h);
    StoppableFacts(s, h, limbo);
    StopHerderCases(s, h, asFailure);
    WatchIsAside(s, h, limbo, steady);
    MeekSame(s, w);
    TriggerKeeps(w, h, limbo, steady);
    TriggerMeek(w, h, limbo, steady);
    InvShape(s, limbo, steady);
    LaterThen(s, w, t, {});
    NotRunning(s, t, h, limbo, steady);
    SoilScript(t, h);
    MeekSame(t, Soil(t, h));
    FinishHerderLine(t, h, asFailure);
    MeekLine(t, FinishHerder(t, h, asFailure), {h});
  }

  // ---------------------------------------------------------------------------------------------
  // Events
  // ---------------------------------------------------------------------------------------------

  lemma LaunchLine(s: State, i: Id, h: HostId)
    requires i in s.store && StatusOf(s.store[i]) == Queued && Coherent(s.store[i])
    ensures KeepsLine(s.store, Launch(s, i, h).store, {i}) && Launch(s, i, h).script == s.script
  {
    LaunchRewrites(s, i, h);
    hide Launch, StatusOf, Coherent, KeepsLine;
    LinePut(s.store, i, s.store[i].(target := h, started := true));
  }

  lemma StartMeek(s: State, i: Id, steady: bool)
    requires Inv(s, {}, steady) && i in s.store && StatusOf(s.store[i]) == Queued && Meek(s)
    ensures Meek(Start(s, i))
  {
    hide *;
    StartCases(s, i);
    InvShape(s, {}, steady);
    QueuedFacts(s, i, {}, steady);
    var t := Start(s, i);
    if t == s {
    } else if s.store[i].herd == i && t == StopHerder(s, i, true) {
      QueuedIsStoppable(s, i);
      StopHerderMeek(s, i, true, {}, steady);
    } else if s.store[i].herd != i && t == DropSheep(s, i, true) {
      SheepHasStartedHerder(s, i, {}, steady);
      DropSheepMeek(s, i, true, {}, steady);
    } else {
      var h :| MayLaunch(s, i, h) && t == Trigger(Launch(s, i, h), i);
      LaunchInv(s, i, h, steady);
      LaunchLine(s, i, h);
      MeekLine(s, Launch(s, i, h), {i});
      TriggerMeek(Launch(s, i, h), i, {}, steady);
    }
  }

  lemma {:induction false} StartAllMeek(s: State, ids: seq<Id>, steady: bool)
    requires Inv(s, {}, steady) && Meek(s)
    ensures Meek(StartAll(s, ids))
    decreases |ids|
  {
    if ids != [] {
      hide *;
      StartAllCases(s, ids);
      if ids[0] in s.store && StatusAt(s, ids[0]) == Queued {
        StartKeeps(s, ids[0], steady);
        StartMeek(s, ids[0], steady);
        StartAllMeek(Start(s, ids[0]), ids[1..], steady);
      } else {
        StartAllMeek(s, ids[1..], steady);
      }
    }
  }

  lemma {:induction false} ReevaluateAllMeek(s: State, ids: seq<Id>, dirty: set<Id>, steady: bool)
    requires Inv(s, {}, steady) && Meek(s)
    ensures Meek(ReevaluateAll(s, ids, dirty))
    decreases |ids|
  {
    if ids != [] {
      hide *;
      ReevaluateAllCases(s, ids, dirty);
      if ids[0] in s.store && Data(s, ids[0]).herd in dirty {
        InvShape(s, {}, steady);
        ReevaluateCases(s, ids[0]);
        ReevaluateKeeps(s, ids[0], steady);
        CancelMeek(s, ids[0], {}, steady);
        if Guarded(s, ids[0]) {
          EnqueueMeek(s, ids[0], {}, steady);
        }
        ReevaluateAllMeek(Reevaluate(s, ids[0]), ids[1..], dirty, steady);
      } else {
        ReevaluateAllMeek(s, ids[1..], dirty, steady);
      }
    }
  }

  lemma {:induction false} CancelOrphansMeek(s: State, ids: seq<Id>, steady: bool)
    requires Inv(s, {}, steady) && Meek(s)
    ensures Meek(CancelOrphans(s, ids))
    decreases |ids|
  {
    if ids != [] {
      assert Cancelable(s, ids[0]) ==> ids[0] in s.store;
      OrphansCases(s, ids);
      hide *;
      if Cancelable(s, ids[0]) && Data(s, ids[0]).task !in s.cfg.tasks {
        CancelKeeps(s, ids[0], {}, steady);
        CancelMeek(s, ids[0], {}, steady);
        CancelOrphansMeek(Cancel(s, ids[0]), ids[1..], steady);
      } else {
        CancelOrphansMeek(s, ids[1..], steady);
      }
    }
  }

  lemma VacateLine(s: State, i: Id, ok: bool)
    requires i in s.busy && i in s.store && StatusOf(s.store[i]) == Running
    ensures KeepsLine(s.store, Vacate(s, i, ok).store, {}) && Vacate(s, i, ok).script == s.script
  {
    var inst := s.store[i].(stopped := true, success := ok, reported := ok);
    assert StatusOf(inst) != Queued;
    assert Vacate(s, i, ok).store == s.store[i := inst];
    hide KeepsLine, StatusOf;
    LinePut(s.store, i, inst);
  }

  lemma StopSheepMeek(s: State, i: Id, steady: bool)
    requires Inv(s, {}, steady) && i in s.store && s.store[i].herd != i && StatusOf(s.store[i]) == Waiting && Meek(s)
    ensures Meek(StopSheep(s, i))
  {
    hide *;
    var t := Close(s, i, false);
    var u := Trigger(t, i);
    StopSheepCases(s, i);
    InvShape(s, {}, steady);
    InstFacts(s, i, {}, steady);
    SheepHasStartedHerder(s, i, {}, steady);
    CloseLine(s, i, false);
    MeekLine(s, t, {i});
    CloseSheepInv(s, i, false, {}, steady);
    assert {} + {i} == {i};
    StillThere(s, t, {i}, i);
    TriggerMeek(t, i, {i}, steady);
    TriggerKeeps(t, i, {i}, steady);
    StaysInLimbo(t, u, i, {i}, {});
    InvShape(u, {i}, steady);
    ReleaseLine(u, i, {i}, steady);
    MeekLine(u, StopSheep(s, i), {});
  }

  lemma StopMeek(s: State, i: Id, ok: bool, steady: bool)
    requires Inv(s, {}, steady) && i in s.busy && Meek(s)
    ensures Meek(Stop(s, i, ok))
  {
    hide *;
    var t := Vacate(s, i, ok);
    BusyIsRunning(s, i, steady);
    VacateInv(s, i, ok, steady);
    VacateLine(s, i, ok);
    MeekLine(s, t, {});
    StopCases(s, i, ok);
    if t.store[i].herd == i {
      StopHerderMeek(t, i, false, {i}, steady);
    } else {
      StopSheepMeek(t, i, steady);
    }
  }

  /** What an event asks for, itself and through the actions it triggers, is not forced. */
  predicate MeekEvent(e: Event) {
    match e
    case PlanEvent(req, _, script) => !req.force && ForcesNothing(script)
    case ReevaluateEvent(script) => ForcesNothing(script)
    case StartEvent(script) => ForcesNothing(script)
    case StopEvent(_, _, script) => ForcesNothing(script)
    case CancelEvent(_, script) => ForcesNothing(script)
    case ReloadEvent(_, script) => ForcesNothing(script)
    case _ => true
  }

  lemma ScriptedMeek(s: State, script: seq<seq<Request>>)
    requires NoForce(s) && ForcesNothing(script)
    ensures Meek(s.(script := script)) && Meek(s.(script := script, dirty := {}))
  {
    hide ForcesNothing;
  }

  lemma PlanEventMeek(s: State, req: Request, herd: Id, script: seq<seq<Request>>)
    requires Inv(s, {}, false) && NoForce(s) && ForcesNothing(script) && !req.force
    requires herd == 0 || IsHerder(s.store, herd)
    ensures NoForce(Plan(s.(script := script), req, herd, 0))
  {
    hide *;
    var t := s.(script := script);
    Scripted(s, script, false);
    ScriptedMeek(s, script);
    assert IsHerder(t.store, herd) == IsHerder(s.store, herd);
    PlanMeek(t, req, herd, 0, {}, false);
    MeekParts(Plan(t, req, herd, 0));
  }

  lemma ReevaluateEventMeek(s: State, script: seq<seq<Request>>)
    requires Inv(s, {}, false) && NoForce(s) && ForcesNothing(script)
    ensures NoForce(ReevaluateAll(s.(script := script, dirty := {}), Ascending(s.live, s.next), s.dirty))
  {
    var t := s.(script := script, dirty := {});
    assert SameHerds(s, t) && SameBooks(s, t);
    hide *;
    AsideKeeps(s, t, false);
    ScriptedMeek(s, script);
    ReevaluateAllMeek(t, Ascending(s.live, s.next), s.dirty, false);
    MeekParts(ReevaluateAll(t, Ascending(s.live, s.next), s.dirty));
  }

  lemma StartEventMeek(s: State, script: seq<seq<Request>>)
    requires Inv(s, {}, false) && NoForce(s) && ForcesNothing(script)
    ensures NoForce(StartAll(s.(script := script), Ascending(s.live, s.next)))
  {
    hide *;
    var t := s.(script := script);
    Scripted(s, script, false);
    ScriptedMeek(s, script);
    StartAllMeek(t, Ascending(s.live, s.next), false);
    MeekParts(StartAll(t, Ascending(s.live, s.next)));
  }

  lemma StopEventMeek(s: State, i: Id, ok: bool, script: seq<seq<Request>>)
    requires Inv(s, {}, false) && NoForce(s) && ForcesNothing(script) && i in s.busy
    ensures NoForce(Stop(s.(script := script), i, ok))
  {
    hide *;
    var t := s.(script := script);
    Scripted(s, script, false);
    ScriptedMeek(s, script);
    StopMeek(t, i, ok, false);
    MeekParts(Stop(t, i, ok));
  }

  lemma CancelEventMeek(s: State, i: Id, script: seq<seq<Request>>)
    requires Inv(s, {}, false) && NoForce(s) && ForcesNothing(script) && i in s.live
    ensures NoForce(Cancel(s.(script := script), i))
  {
    hide *;
    var t := s.(script := script);
    Scripted(s, script, false);
    ScriptedMeek(s, script);
    InvShape(s, {}, false);
    LiveHerderIsKnown(s, i);
    CancelMeek(t, i, {}, false);
    MeekParts(Cancel(t, i));
  }

  lemma AbortEventMeek(s: State, i: Id)
    requires Inv(s, {}, false) && NoForce(s)
    ensures NoForce(Abort(s, i))
  {
    hide *;
    var t := s.(script := []);
    AbortIs(s, i);
    InvShape(s, {}, false);
    SheepAreSheep(s, i, {}, false);
    CancelHerdIs(s, i);
    AllOutOfLine(s, Ascending(Sheep(s, i), s.next), i);
    DropSheepOfLine(s, Ascending(Sheep(s, i), s.next), i, s.store.Keys, {}, false);
    LineForce(s, CancelHerd(s, i), s.store.Keys);
  }

  lemma ReloadMeek(s: State, cfg: Config, script: seq<seq<Request>>)
    requires Inv(s, {}, false) && NoForce(s) && ForcesNothing(script)
    ensures NoForce(CancelOrphans(Activate(s.(script := script), cfg), Ascending(s.live, s.next)))
  {
    hide *;
    var t := s.(script := script);
    var u := Activate(t, cfg);
    Scripted(s, script, false);
    ScriptedMeek(s, script);
    ActivateKeeps(t, cfg, false);
    ActivateStore(t, cfg);
    MeekSame(t, u);
    CancelOrphansMeek(u, Ascending(s.live, s.next), false);
    MeekParts(CancelOrphans(u, Ascending(s.live, s.next)));
  }

  lemma ActivateStore(s: State, cfg: Config)
    ensures Activate(s, cfg).store == s.store && Activate(s, cfg).script == s.script
  {
    ActivateEffect(s, cfg);
    hide Activate;
  }

  /** In no event does a forced instance appear unless it is asked for. */
  lemma OnlyForcedRequestsForce(s: State, e: Event)
    requires Inv(s, {}, false) && Enabled(s, e) && NoForce(s) && MeekEvent(e)
    ensures NoForce(Apply(s, e))
  {
    hide Inv, NoForce, ForcesNothing, Plan, ReevaluateAll, StartAll, Stop, Cancel, Abort, CancelOrphans, Activate,
         Ascending;
    match e {
      case PlanEvent(req, herd, script) => PlanEventMeek(s, req, herd, script);
      case ReevaluateEvent(script) => ReevaluateEventMeek(s, script);
      case StartEvent(script) => StartEventMeek(s, script);
      case StopEvent(i, ok, script) => StopEventMeek(s, i, ok, script);
      case CancelEvent(i, script) =>
        if i in s.live {
          CancelEventMeek(s, i, script);
        }
      case AbortEvent(i) => AbortEventMeek(s, i);
      case EnableEvent(_, _) => MeekAside(s, Apply(s, e));
      case HostsEvent(_, _) => MeekAside(s, Apply(s, e));
      case ReloadEvent(cfg, script) => ReloadMeek(s, cfg, script);
    }
  }

  lemma MeekAside(s: State, t: State)
    requires NoForce(s) && t.store == s.store
    ensures NoForce(t)
  {
  }
}
