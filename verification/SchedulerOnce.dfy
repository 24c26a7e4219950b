/** The configurations in which no herder is ever finished twice. */
module SchedulerOnce {
  import opened TaskStatus
  import opened Totals
  import opened SchedulerModel
  import opened SchedulerInvariants
  import opened SchedulerHerds
  import opened SchedulerBooks
  import opened SchedulerSteps
  import opened SchedulerActions
  import opened SchedulerRuns
  import opened SchedulerTheorems
  import opened SchedulerQueue
  import opened SchedulerLines
  import opened SchedulerForce
  import opened SchedulerShelter
  import opened SchedulerAgain
  import opened SchedulerCancel
  import opened SchedulerAnswers
  import opened SchedulerAlike
  import opened SchedulerFindings
  import opened SchedulerDuplicates
  import opened SchedulerTwice
  import opened SchedulerStart
  import C = Conditions

  // ---------------------------------------------------------------------------------------------
  // Configurations in which nothing can start
  // ---------------------------------------------------------------------------------------------

  /** A host that a task may be given, and that has what the task needs. */
  predicate Carries(cfg: Config, t: TaskId, h: HostId)
    requires t in cfg.tasks
  {
    && (cfg.tasks[t].target in cfg.hosts ==> h == cfg.tasks[t].target)
    && forall k <- cfg.tasks[t].resources :: cfg.tasks[t].resources[k] <= Capacity(cfg, h, k)
  }

  /** An instance of a task can start on an idle executor of an idle host. */
  ghost predicate CanStart(cfg: Config, t: TaskId) {
    t in cfg.tasks && 0 < cfg.tasks[t].maxInstances && 0 < cfg.maxTotal && exists h :: Carries(cfg, t, h)
  }

  /** Nothing is running, nothing was finished again, and executors are as configured. */
  ghost predicate Resting(s: State) {
    s.busy == map[] && s.again == [] && |s.idle| == s.cfg.maxTotal
  }

  /** What a start that runs an instance has found. */
  ghost predicate Found(s: State, i: Id, h: HostId) {
    MayLaunch(s, i, h) && h in Candidates(s, s.cfg.tasks[s.store[i].task].target) && (s.store[i].force || s.idle != [])
  }

  lemma StartFinds(s: State, i: Id)
    requires i in s.store && StatusOf(s.store[i]) == Queued
    ensures var t := Start(s, i);
            || t == s
            || (s.store[i].herd == i && t == StopHerder(s, i, true))
            || (s.store[i].herd != i && t == DropSheep(s, i, true))
            || exists h :: Found(s, i, h) && t == Trigger(Launch(s, i, h), i)
  {
    hide StopHerder, DropSheep, Launch, Trigger, StatusOf, Candidates, Fits;
  }

  lemma NoLess(store: Store, f: Key -> int)
    requires forall k :: 0 <= f(k)
    ensures 0 <= Tally(store, Active, f)
  {
    var none := (i: nat) => 0;
    var weight := (i: nat) => if i in store then Part(store[i], Active, f) else 0;
    TotalCounts(store.Keys, none, {});
    TotalBounds(store.Keys, none, weight);
  }

  lemma CountIsNoLess(s: State, t: TaskId)
    requires Slotted(s) && s.again == [] && t in s.cfg.tasks
    ensures 0 <= Get(s.count, t, 0)
  {
    assert Get(s.count, t, 0) + Twice(s.store, s.again, OfTask(t)) == Tally(s.store, Active, OfTask(t)) by {
      hide Tally, Twice;
    }
    hide Tally;
    NoLess(s.store, OfTask(t));
  }

  lemma UsedIsNoLess(s: State, h: HostId, k: Kind)
    requires Loaded(s) && NoForce(s) && s.again == []
    ensures 0 <= Used(s.used, h, k)
  {
    assert Balanced(s, h, k) by { hide Balanced, NoForce; }
    assert Twice(s.store, s.again, OnHost(s.cfg, h, k)) == 0;
    assert forall key :: 0 <= OnHost(s.cfg, h, k)(key);
    hide *;
    NothingUncharged(s, h, k);
    BalanceIs(s, h, k);
    NoLess(s.store, OnHost(s.cfg, h, k));
  }

  lemma CandidateIsTarget(s: State, target: string, h: HostId)
    requires h in Candidates(s, target)
    ensures target in s.cfg.hosts ==> h == target
  {
  }

  lemma FoundFacts(s: State, i: Id, h: HostId)
    requires Found(s, i, h) && NoForce(s) && Resting(s)
    ensures i in s.store && s.store[i].task in s.cfg.tasks
    ensures var t := s.cfg.tasks[s.store[i].task];
            && Get(s.count, s.store[i].task, 0) < t.maxInstances && 0 < s.cfg.maxTotal
            && h in Candidates(s, t.target)
            && forall k <- t.resources :: t.resources[k] <= Capacity(s.cfg, h, k) - Used(s.used, h, k)
  {
    assert !s.store[i].force;
    hide StatusOf, Candidates, NoForce;
  }

  lemma CarriesIf(cfg: Config, t: TaskId, h: HostId)
    requires t in cfg.tasks && (cfg.tasks[t].target in cfg.hosts ==> h == cfg.tasks[t].target)
    requires forall k <- cfg.tasks[t].resources :: cfg.tasks[t].resources[k] <= Capacity(cfg, h, k)
    requires 0 < cfg.tasks[t].maxInstances && 0 < cfg.maxTotal
    ensures CanStart(cfg, t)
  {
    hide Capacity;
    assert Carries(cfg, t, h);
  }

  lemma Accounts(s: State)
    requires Inv(s, {}, true)
    ensures Slotted(s) && Loaded(s)
  {
    InvShape(s, {}, true);
    hide Inv, Herds, Slotted, Loaded, Bounded, Staffed;
  }

  lemma NotAgain(s: State)
    requires Resting(s)
    ensures s.again == [] && s.busy == map[] && |s.idle| == s.cfg.maxTotal
  {
  }

  /** Only a task that can start is started, when nothing was finished again and nothing is forced. */
  lemma FoundCanStart(s: State, i: Id, h: HostId)
    requires Inv(s, {}, true) && NoForce(s) && Resting(s) && Found(s, i, h)
    ensures i in s.store && CanStart(s.cfg, s.store[i].task)
  {
    hide *;
    FoundFacts(s, i, h);
    Accounts(s);
    NotAgain(s);
    var t := s.store[i].task;
    CountIsNoLess(s, t);
    CandidateIsTarget(s, s.cfg.tasks[t].target, h);
    forall k <- s.cfg.tasks[t].resources ensures s.cfg.tasks[t].resources[k] <= Capacity(s.cfg, h, k) {
      UsedIsNoLess(s, h, k);
    }
    CarriesIf(s.cfg, t, h);
  }

  // ---------------------------------------------------------------------------------------------
  // Runs in which nothing starts
  // ---------------------------------------------------------------------------------------------

  ghost predicate NobodyCanStart(cfg: Config) {
    forall t :: !CanStart(cfg, t)
  }

  lemma LaterIsIdle(s: State, t: State, except: set<Id>)
    requires Later(s, t, except)
    ensures t.busy == s.busy && t.idle == s.idle && t.cfg == s.cfg
  {
    hide Guarded, Evolves, StatusOf, OnlyNewIds;
  }

  /** The same executors are idle and at work. */
  predicate SameCrew(s: State, t: State) {
    t.busy == s.busy && t.idle == s.idle && t.cfg == s.cfg
  }

  lemma StartRests(s: State, i: Id)
    requires Inv(s, {}, true) && i in s.store && StatusOf(s.store[i]) == Queued
    requires Resting(s) && NobodyCanStart(s.cfg) && NoForce(s)
    ensures SameCrew(s, Start(s, i)) && Start(s, i).again == s.again
  {
    assert forall t :: !CanStart(s.cfg, t);
    assert SameCrew(s, s);
    hide Inv, Resting, NobodyCanStart, NoForce, Start, StopHerder, DropSheep, Launch, Trigger, StatusOf, Found,
         CanStart;
    StartFinds(s, i);
    StartOnce(s, i, true);
    InvShape(s, {}, true);
    QueuedFacts(s, i, {}, true);
    var t := Start(s, i);
    if t == s {
    } else if s.store[i].herd == i && t == StopHerder(s, i, true) {
      QueuedIsStoppable(s, i);
      StopHerderKeeps(s, i, true, {}, true);
      LaterIsIdle(s, t, {i});
    } else if s.store[i].herd != i && t == DropSheep(s, i, true) {
      SheepHasStartedHerder(s, i, {}, true);
      DropSheepInv(s, i, true, {}, true);
      LaterIsIdle(s, t, {i});
    } else {
      var h :| Found(s, i, h) && t == Trigger(Launch(s, i, h), i);
      FoundCanStart(s, i, h);
    }
  }

  lemma StillResting(s: State, t: State)
    requires Resting(s) && SameCrew(s, t) && t.again == s.again
    ensures Resting(t)
  {
  }

  lemma {:induction false} StartAllRests(s: State, ids: seq<Id>)
    requires Inv(s, {}, true) && Resting(s) && NobodyCanStart(s.cfg) && NoForce(StartAll(s, ids))
    ensures SameCrew(s, StartAll(s, ids))
    decreases |ids|
  {
    hide *;
    CrewTrans(s, s, s);
    if ids == [] {
      StartNobody(s);
    } else {
      StartAllCases(s, ids);
      if ids[0] in s.store && StatusAt(s, ids[0]) == Queued {
        var t := Start(s, ids[0]);
        StartKeeps(s, ids[0], true);
        StartAllKeeps(t, ids[1..], true);
        FollowsForce(t, StartAll(s, ids));
        FollowsForce(s, t);
        StartRests(s, ids[0]);
        StillResting(s, t);
        FollowsConfig(s, t);
        StartAllRests(t, ids[1..]);
        CrewTrans(s, t, StartAll(t, ids[1..]));
      } else {
        StartAllRests(s, ids[1..]);
      }
    }
  }

  lemma CrewTrans(s: State, t: State, u: State)
    ensures SameCrew(s, s) && (SameCrew(s, t) && SameCrew(t, u) ==> SameCrew(s, u))
  {
  }

  lemma {:induction false} ReevaluateAllRests(s: State, ids: seq<Id>, dirty: set<Id>)
    requires Inv(s, {}, true)
    ensures SameCrew(s, ReevaluateAll(s, ids, dirty))
    decreases |ids|
  {
    hide *;
    CrewTrans(s, s, s);
    if ids == [] {
      StartNobody(s);
    } else {
      ReevaluateAllCases(s, ids, dirty);
      if ids[0] in s.store && Data(s, ids[0]).herd in dirty {
        var t := Reevaluate(s, ids[0]);
        InvShape(s, {}, true);
        ReevaluateKeeps(s, ids[0], true);
        ReevaluateCases(s, ids[0]);
        CancelKeeps(s, ids[0], {}, true);
        if t == Cancel(s, ids[0]) {
          CrewLater(s, t, {ids[0]});
        } else if t != s {
          EnqueueKeeps(s, ids[0], {}, true);
          CrewLater(s, t, {ids[0]});
        }
        ReevaluateAllRests(t, ids[1..], dirty);
        CrewTrans(s, t, ReevaluateAll(t, ids[1..], dirty));
      } else {
        ReevaluateAllRests(s, ids[1..], dirty);
      }
    }
  }

  lemma CrewLater(s: State, t: State, except: set<Id>)
    requires Later(s, t, except)
    ensures SameCrew(s, t)
  {
    hide Later;
    LaterIsIdle(s, t, except);
  }

  lemma {:induction false} DropSheepOfRests(s: State, ids: seq<Id>, h: Id)
    requires Inv(s, {}, true) && AreSheep(s, ids, h)
    ensures SameCrew(s, DropSheepOf(s, ids))
    decreases |ids|
  {
    if ids != [] {
      assert AreSheep(s, ids[1..], h) && ids[0] in ids;
      var t := if Cancelable(s, ids[0]) then DropSheep(s, ids[0], false) else s;
      assert DropSheepOf(s, ids) == DropSheepOf(t, ids[1..]);
      hide Inv, DropSheep, DropSheepOf, StatusOf, Later, SameCrew;
      CrewTrans(s, t, DropSheepOf(t, ids[1..]));
      if Cancelable(s, ids[0]) {
        DropSheepInv(s, ids[0], false, {}, true);
        SheepStay(s, t, ids[1..], h, {ids[0]});
        CrewLater(s, t, {ids[0]});
      }
      DropSheepOfRests(t, ids[1..], h);
    }
  }

  lemma AbortRests(s: State, i: Id)
    requires Inv(s, {}, true)
    ensures SameCrew(s, Abort(s, i))
  {
    AbortIs(s, i);
    hide *;
    InvShape(s, {}, true);
    SheepAreSheep(s, i, {}, true);
    CancelHerdIs(s, i);
    CrewTrans(s, s, s);
    DropSheepOfRests(s, Ascending(Sheep(s, i), s.next), i);
  }

  lemma PlanEventRests(s: State, req: Request, herd: Id, script: seq<seq<Request>>)
    requires Inv(s, {}, true) && (herd == 0 || IsHerder(s.store, herd))
    ensures SameCrew(s, Plan(s.(script := script), req, herd, 0))
  {
    assert IsHerder(s.(script := script).store, herd) == IsHerder(s.store, herd);
    hide *;
    var t := s.(script := script);
    Scripted(s, script, true);
    PlanKeeps(t, req, herd, 0, {}, true);
    LaterIsIdle(t, Plan(t, req, herd, 0), {});
    CrewIs(s, Plan(t, req, herd, 0));
  }

  lemma CrewIs(s: State, t: State)
    ensures SameCrew(s, t) <==> t.busy == s.busy && t.idle == s.idle && t.cfg == s.cfg
  {
  }

  lemma ReevaluateEventRests(s: State, script: seq<seq<Request>>)
    requires Inv(s, {}, true)
    ensures SameCrew(s, ReevaluateAll(s.(script := script, dirty := {}), Ascending(s.live, s.next), s.dirty))
  {
    var t := s.(script := script, dirty := {});
    assert SameHerds(s, t) && SameBooks(s, t);
    hide *;
    var u := ReevaluateAll(t, Ascending(s.live, s.next), s.dirty);
    AsideKeeps(s, t, true);
    ReevaluateAllRests(t, Ascending(s.live, s.next), s.dirty);
    CrewIs(t, u);
    CrewIs(s, u);
  }

  lemma StartEventRests(s: State, script: seq<seq<Request>>)
    requires Inv(s, {}, true) && Resting(s) && NobodyCanStart(s.cfg)
    requires NoForce(StartAll(s.(script := script), Ascending(s.live, s.next)))
    ensures SameCrew(s, StartAll(s.(script := script), Ascending(s.live, s.next)))
  {
    hide *;
    var t := s.(script := script);
    var u := StartAll(t, Ascending(s.live, s.next));
    Scripted(s, script, true);
    CrewIs(s, t);
    StillResting(s, t);
    StartAllRests(t, Ascending(s.live, s.next));
    CrewIs(t, u);
    CrewIs(s, u);
  }

  lemma CancelEventRests(s: State, i: Id, script: seq<seq<Request>>)
    requires Inv(s, {}, true) && i in s.live
    ensures SameCrew(s, Cancel(s.(script := script), i))
  {
    hide *;
    var t := s.(script := script);
    Scripted(s, script, true);
    InvShape(s, {}, true);
    LiveHerderIsKnown(s, i);
    CancelKeeps(t, i, {}, true);
    LaterIsIdle(t, Cancel(t, i), {i});
    CrewIs(s, Cancel(t, i));
  }

  lemma NobodyStops(s: State, e: Event)
    requires Resting(s) && Enabled(s, e)
    ensures !e.StopEvent?
  {
  }

  lemma SettingEventRests(s: State, e: Event)
    requires e.EnableEvent? || e.HostsEvent?
    ensures SameCrew(s, Apply(s, e))
  {
    hide Plan, ReevaluateAll, StartAll, Stop, Cancel, Abort, CancelOrphans, Activate, Ascending;
  }

  lemma ApplyRests(s: State, e: Event)
    requires Inv(s, {}, true) && Enabled(s, e) && !e.ReloadEvent? && Resting(s) && NobodyCanStart(s.cfg)
    requires NoForce(Apply(s, e))
    ensures SameCrew(s, Apply(s, e))
  {
    hide Inv, NoForce, Resting, NobodyCanStart, Plan, ReevaluateAll, StartAll, Stop, Cancel, Abort, CancelOrphans,
         Activate, Ascending, SameCrew, Data;
    match e {
      case PlanEvent(req, herd, script) =>
        HerdOfEvent(s, req, herd, script);
        PlanEventRests(s, req, herd, script);
      case ReevaluateEvent(script) => ReevaluateEventRests(s, script);
      case StartEvent(script) => StartEventRests(s, script);
      case StopEvent(_, _, _) => NobodyStops(s, e);
      case CancelEvent(i, script) =>
        CrewTrans(s, s, s);
        if i in s.live {
          CancelEventRests(s, i, script);
        }
      case AbortEvent(i) =>
        CrewTrans(s, s, s);
        AbortRests(s, i);
      case EnableEvent(_, _) => SettingEventRests(s, e);
      case HostsEvent(_, _) => SettingEventRests(s, e);
      case ReloadEvent(_, _) =>
    }
  }

  lemma StopsAreNone(s: State, e: Event)
    requires !e.StopEvent?
    ensures !HerderStops(s, e)
  {
  }

  /** In a run of a configuration in which nothing can start, without forced instances, nothing is ever
      finished again. */
  lemma {:induction false} RunRests(s: State, events: seq<Event>)
    requires Inv(s, {}, true) && Possible(s, events) && Fixed(events) && Resting(s) && NobodyCanStart(s.cfg)
    requires NoForce(After(s, events))
    ensures After(s, events).again == []
    decreases |events|
  {
    if events == [] {
      assert After(s, events) == s;
    } else {
      var t := Apply(s, events[0]);
      assert Possible(t, events[1..]) && Enabled(s, events[0]) && After(s, events) == After(t, events[1..]);
      FixedRest(events);
      assert Mild(s, events[0]);
      hide *;
      ApplyKeeps(s, events[0], true);
      FixedKeeps(t, events[1..]);
      ForceGoesBack(t, After(t, events[1..]));
      ApplyRests(s, events[0]);
      NobodyStops(s, events[0]);
      StopsAreNone(s, events[0]);
      InvWeakens(s, {});
      OnlyStopsFinishAgain(s, events[0]);
      StillResting(s, t);
      CrewIs(s, t);
      RunRests(t, events[1..]);
    }
  }

  lemma FixedRest(events: seq<Event>)
    requires Fixed(events) && events != []
    ensures !events[0].ReloadEvent? && Fixed(events[1..])
  {
    assert events[0] in events;
  }

  lemma FixedKeeps(s: State, events: seq<Event>)
    requires Inv(s, {}, true) && Possible(s, events) && Fixed(events)
    ensures Progress(s, After(s, events)) && Inv(After(s, events), {}, true)
  {
    hide *;
    InvWeakens(s, {});
    FixedIsSteady(s, events);
    RunKeeps(s, events, true);
  }

  // ---------------------------------------------------------------------------------------------
  // A run in which a herder is finished twice
  // ---------------------------------------------------------------------------------------------

  /** An instance that arrives at a task below its limit is queued, and displaces nobody. */
  lemma ArrivesFreely(s: State, i: Id, steady: bool)
    requires Inv(s, {}, steady) && Guarded(s, i) && i in s.store && !s.store[i].force && s.store[i].task in s.enabled
    requires 0 < MaxQueued(s, i) ==> |Kin(s.store, s.store[i].task, s.store[i].criterion)| < MaxQueued(s, i)
    requires QueueSize(s) < s.cfg.maxQueued
    ensures Enqueue(s, i) == s.(store := s.store[i := s.store[i].(queued := true)], live := s.live + {i})
  {
    hide *;
    EnqueueCases(s, i);
    DataIs(s, i);
    AdmitIs(s, i);
    if 0 < MaxQueued(s, i) {
      SurplusDisplaces(s, i, {}, steady);
      CancelAllCases(s, []);
    }
  }

  /** Instance 1 of a task is queued, or runs, and is all there is. */
  ghost predicate Alone(s: State, cfg: Config, u: TaskId, status: Status) {
    && s.cfg == cfg && s.enabled == cfg.tasks.Keys && s.next == 2
    && s.live == {1} && s.store.Keys == {1} && s.awaited == map[] && s.herds == map[]
    && s.store[1].herd == 1 && s.store[1].task == u && !s.store[1].force && StatusOf(s.store[1]) == status
    && s.again == []
  }

  /** Nothing has been planned, and a host is up to which every target leads. */
  ghost predicate Empty(s: State, cfg: Config, u: TaskId, h: HostId)
    requires u in cfg.tasks
  {
    && s.cfg == cfg && s.enabled == cfg.tasks.Keys && s.next == 1 && s.up == {h}
    && s.order == map[cfg.tasks[u].target := [h]]
    && s.live == {} && s.store == map[] && s.awaited == map[] && s.herds == map[] && s.again == []
    && s.count == map[] && s.used == map[] && |s.idle| == cfg.maxTotal
  }

  /** It can be started. */
  ghost predicate Startable(s: State, cfg: Config, u: TaskId, h: HostId)
    requires u in cfg.tasks
  {
    && Alone(s, cfg, u, Queued) && s.up == {h} && s.order == map[cfg.tasks[u].target := [h]]
    && s.count == map[] && s.used == map[] && |s.idle| == cfg.maxTotal
  }

  lemma HostComesUp(cfg: Config, up: set<HostId>, order: map<string, seq<HostId>>, u: TaskId, h: HostId)
    requires u in cfg.tasks
    ensures Empty(Apply(Initial(cfg, up, order), HostsEvent({h}, map[cfg.tasks[u].target := [h]])), cfg, u, h)
  {
  }

  lemma InsertFirst(s: State, cfg: Config, u: TaskId, h: HostId)
    requires u in cfg.tasks && Empty(s, cfg, u, h)
    ensures var t := Insert(s, Asked(u, true), 0, 0);
            && t.store.Keys == {1} && t.live == {1} && t.next == 2 && t.store[1].herd == 1 && t.store[1].task == u
            && !t.store[1].force && StatusOf(t.store[1]) == Planned && t.store[1].criterion == ""
            && t == s.(store := t.store, live := {1}, next := 2) && Guarded(t, 1)
            && QueueSize(t) == 0 && Kin(t.store, u, "") == {}
  {
    var t := Insert(s, Asked(u, true), 0, 0);
    assert t.store[1] == NewInst(1, Asked(u, true), 0, false, 0);
    assert (set j | j in t.live && j in t.store && StatusAt(t, j) == Queued) == {};
    hide Insert;
  }

  lemma FirstIsQueued(s: State, cfg: Config, u: TaskId, h: HostId)
    requires Inv(s, {}, false) && u in cfg.tasks && Empty(s, cfg, u, h) && 0 < cfg.maxQueued
    ensures Startable(Apply(s, PlanEvent(Asked(u, true), 0, [])), cfg, u, h)
  {
    var w := s.(script := []);
    assert Empty(w, cfg, u, h);
    hide *;
    var t := Insert(w, Asked(u, true), 0, 0);
    InsertFirst(w, cfg, u, h);
    Scripted(s, [], false);
    PlanIs(s, Asked(u, true), []);
    FirstKnown(w, cfg, u, h);
    PlanCases(w, Asked(u, true), 0, 0);
    TriggerCases(t, 1);
    InsertInv(w, Asked(u, true), 0, 0, {}, false);
    ArrivesFreely(t, 1, false);
    FirstQueued(w, cfg, u, h, t, Enqueue(t, 1));
  }

  lemma FirstKnown(s: State, cfg: Config, u: TaskId, h: HostId)
    requires u in cfg.tasks && Empty(s, cfg, u, h)
    ensures u in s.cfg.tasks && u in s.enabled && 0 !in s.live && s.next == 1 && s.cfg == cfg
    ensures Asked(u, true).task == u && Asked(u, true).lone && !Asked(u, true).force && Asked(u, true).criterion == ""
  {
  }

  lemma FirstQueued(s: State, cfg: Config, u: TaskId, h: HostId, t: State, v: State)
    requires u in cfg.tasks && Empty(s, cfg, u, h)
    requires t.store.Keys == {1} && t.store[1].herd == 1 && t.store[1].task == u
    requires !t.store[1].force && StatusOf(t.store[1]) == Planned
    requires t == s.(store := t.store, live := {1}, next := 2)
    requires v == t.(store := t.store[1 := t.store[1].(queued := true)], live := t.live + {1})
    ensures Startable(v, cfg, u, h)
  {
    assert t.live + {1} == {1};
  }

  lemma OneAvailable(h: HostId)
    ensures Available([h], {h}) == [h]
  {
    assert [h][1..] == [] && Available([], {h}) == [];
  }

  lemma FirstFindsHost(s: State, cfg: Config, u: TaskId, h: HostId)
    requires CanStart(cfg, u) && Carries(cfg, u, h) && Startable(s, cfg, u, h)
    ensures Start(s, 1) == Trigger(Launch(s, 1, h), 1)
  {
    hide Trigger, Launch;
    var t := cfg.tasks[u];
    assert Candidates(s, t.target) == [h] by { OneAvailable(h); }
    assert Suits(s, h, t.resources, false);
    assert Choose(s, [h], t.resources, false) == [h];
    assert Data(s, 1) == s.store[1];
    assert s.idle != [] && Get(s.count, u, 0) == 0;
    hide Candidates, Suits, Choose, StatusOf;
  }

  lemma FirstLaunched(s: State, cfg: Config, u: TaskId, h: HostId)
    requires u in cfg.tasks && Startable(s, cfg, u, h)
    ensures Alone(Launch(s, 1, h), cfg, u, Running) && 1 in Launch(s, 1, h).busy
  {
    hide ResourcesOf, Charged;
  }

  lemma FirstRuns(s: State, cfg: Config, u: TaskId, h: HostId)
    requires CanStart(cfg, u) && Carries(cfg, u, h) && Startable(s, cfg, u, h)
    ensures var t := Apply(s, StartEvent([])); Alone(t, cfg, u, Running) && 1 in t.busy
  {
    var t := s.(script := []);
    assert Startable(t, cfg, u, h);
    assert s.live == {1} && s.next == 2 && 1 in t.store && StatusAt(t, 1) == Queued;
    hide *;
    FirstLaunched(t, cfg, u, h);
    FirstFindsHost(t, cfg, u, h);
    TriggerCases(Launch(t, 1, h), 1);
    LaunchScript(t, 1, h);
    StartAllCases(t, [1]);
    OnlyOne();
    StartNobody(Start(t, 1));
    StartEventIs(s, []);
  }

  /** Instance 1 runs, and has a sheep that is planned or queued, the only one of its kind. */
  ghost predicate Followed(s: State, cfg: Config, t: TaskId, status: Status) {
    && s.cfg == cfg && s.enabled == cfg.tasks.Keys && s.next == 3
    && s.live == {1, 2} && s.store.Keys == {1, 2} && Get(s.awaited, 1, {}) == {2} && Get(s.herds, 1, {}) == {2}
    && s.store[1].herd == 1 && !s.store[1].force && StatusOf(s.store[1]) == Running && 1 in s.busy
    && s.store[2].herd == 1 && s.store[2].task == t && !s.store[2].force && s.store[2].criterion == ""
    && s.store[2].queuewhen == C.TaskWait(C.AllStarted, {0}) && StatusOf(s.store[2]) == status
    && s.again == []
  }

  lemma SheepInserted(s: State, cfg: Config, u: TaskId, t: TaskId)
    requires Alone(s, cfg, u, Running) && 1 in s.busy
    ensures Followed(Insert(s, Asked(t, false), 1, 0), cfg, t, Planned)
  {
    var v := Insert(s, Asked(t, false), 1, 0);
    assert v.store[2] == NewInst(2, Asked(t, false), 1, true, 0);
    assert v.store[1] == s.store[1].(herded := s.store[1].herded + {2});
    assert Get(v.awaited, 1, {}) == {} + {2} && Get(v.herds, 1, {}) == {} + {2};
    assert v.store.Keys == {1, 2} && v.live == {1, 2};
    hide Insert;
  }

  lemma SheepPlanned(s: State, cfg: Config, u: TaskId, t: TaskId)
    requires Alone(s, cfg, u, Running) && 1 in s.busy && t in cfg.tasks
    ensures Enabled(s, PlanEvent(Asked(t, false), 1, []))
    ensures var v := Apply(s, PlanEvent(Asked(t, false), 1, [])); Followed(v, cfg, t, Planned) && 1 in v.dirty
  {
    var w := s.(script := []);
    var v := Insert(w, Asked(t, false), 1, 0);
    assert Alone(w, cfg, u, Running);
    assert 1 in w.live && 1 in w.store && w.next == 2 && t in w.cfg.tasks && t in w.enabled;
    assert Enabled(s, PlanEvent(Asked(t, false), 1, []));
    assert Apply(s, PlanEvent(Asked(t, false), 1, [])) == Plan(w, Asked(t, false), 1, 0) by { hide Plan; }
    assert Asked(t, false).task == t && 1 in Soil(v, 1).dirty;
    hide *;
    SheepInserted(w, cfg, u, t);
    PlanCases(w, Asked(t, false), 1, 0);
    TriggerCases(v, 2);
    StillFollowed(v, Soil(v, 1), cfg, t, Planned);
  }

  lemma StillFollowed(s: State, v: State, cfg: Config, t: TaskId, status: Status)
    requires Followed(s, cfg, t, status)
    ensures v == Soil(s, 1) ==> Followed(v, cfg, t, status)
    ensures v == s.(script := [], dirty := {}) ==> Followed(v, cfg, t, status)
  {
    hide StatusOf;
  }

  lemma SheepIsGuarded(s: State, cfg: Config, t: TaskId)
    requires Followed(s, cfg, t, Planned) && t in cfg.tasks
    ensures Guarded(s, 2) && 2 in s.store && !s.store[2].force && s.store[2].task in s.enabled
    ensures Kin(s.store, s.store[2].task, s.store[2].criterion) == {} && QueueSize(s) == 0
    ensures Data(s, 1).herd == 1 && Data(s, 2).herd == 1
  {
    assert (set j | j in s.live && j in s.store && StatusAt(s, j) == Queued) == {};
  }

  lemma SheepEvaluated(s: State, cfg: Config, t: TaskId)
    requires Followed(s, cfg, t, Planned)
    ensures Reevaluate(s, 1) == s && Reevaluate(s, 2) == Enqueue(s, 2)
  {
    ParentIsNoSheep(s);
    hide Enqueue, Cancel, C.Holds, Herded;
  }

  lemma SheepQueued(s: State, cfg: Config, t: TaskId)
    requires Inv(s, {}, false) && Followed(s, cfg, t, Planned) && t in cfg.tasks && 0 < cfg.maxQueued
    ensures Followed(Enqueue(s, 2), cfg, t, Queued)
  {
    assert s.cfg == cfg && 2 in s.live;
    hide *;
    SheepIsGuarded(s, cfg, t);
    NobodyKin(Kin(s.store, s.store[2].task, s.store[2].criterion), MaxQueued(s, 2));
    ArrivesFreely(s, 2, false);
    QueuedFollows(s, Enqueue(s, 2), cfg, t);
  }

  lemma NobodyKin(kin: set<Id>, max: nat)
    requires kin == {}
    ensures 0 < max ==> |kin| < max
  {
  }

  lemma QueuedFollows(s: State, v: State, cfg: Config, t: TaskId)
    requires Followed(s, cfg, t, Planned)
    requires v == s.(store := s.store[2 := s.store[2].(queued := true)], live := s.live + {2})
    ensures Followed(v, cfg, t, Queued)
  {
    assert v.live == {1, 2};
  }

  lemma NothingDirty(s: State)
    ensures var v := s.(script := [], dirty := {}); SameHerds(s, v) && SameBooks(s, v)
  {
  }

  lemma FollowedIds(s: State, cfg: Config, t: TaskId)
    requires Followed(s, cfg, t, Planned)
    ensures s.live == {1, 2} && s.next == 3 && 1 in s.store && 2 in s.store
  {
  }

  lemma SheepReevaluated(s: State, cfg: Config, t: TaskId)
    requires Inv(s, {}, false) && Followed(s, cfg, t, Planned) && 1 in s.dirty && t in cfg.tasks && 0 < cfg.maxQueued
    ensures Followed(Apply(s, ReevaluateEvent([])), cfg, t, Queued)
  {
    hide *;
    var v := s.(script := [], dirty := {});
    NothingDirty(s);
    FollowedIds(s, cfg, t);
    AsideKeeps(s, v, false);
    StillFollowed(s, v, cfg, t, Planned);
    SheepEvaluated(v, cfg, t);
    SheepQueued(v, cfg, t);
    SheepIsGuarded(v, cfg, t);
    ReevaluateAllCases(v, [1, 2], s.dirty);
    ReevaluateAllCases(v, [2], s.dirty);
    TwoOfThem();
    StartNobody(Enqueue(v, 2));
    StartEventIs(s, []);
  }

  /** Instance 1 runs and waits for instance 2, the lowest of some queued instances of a task, which are
      all that are queued. */
  ghost predicate Grazing(s: State, cfg: Config, t: TaskId, k: nat) {
    && s.cfg == cfg && t in s.enabled && t in cfg.tasks && NoForce(s) && s.again == []
    && 1 in s.busy && 1 in s.store && s.store[1].herd == 1 && Get(s.awaited, 1, {}) == {2}
    && 2 in Kin(s.store, t, "") && (forall j <- Kin(s.store, t, "") :: 2 <= j) && |Kin(s.store, t, "")| == k
    && forall j <- s.store :: StatusOf(s.store[j]) == Queued ==> j in Kin(s.store, t, "")
  }

  lemma FlockGrazes(s: State, cfg: Config, t: TaskId)
    requires Followed(s, cfg, t, Queued) && t in cfg.tasks
    ensures Grazing(s, cfg, t, 1)
  {
    assert Kin(s.store, t, "") == {2};
    hide Kin;
  }

  lemma GrazingParts(s: State, cfg: Config, t: TaskId, k: nat)
    requires Grazing(s, cfg, t, k)
    ensures s.cfg == cfg && t in s.enabled && t in cfg.tasks && NoForce(s) && s.again == []
    ensures 1 in s.busy && 1 in s.store && s.store[1].herd == 1 && Get(s.awaited, 1, {}) == {2}
    ensures 2 in Kin(s.store, t, "") && (forall j <- Kin(s.store, t, "") :: 2 <= j) && |Kin(s.store, t, "")| == k
  {
    hide Kin, NoForce, StatusOf;
  }

  lemma FlockIsQueue(s: State, cfg: Config, t: TaskId, k: nat)
    requires Grazing(s, cfg, t, k)
    ensures QueueSize(s) <= k
  {
    var queued := set j | j in s.live && j in s.store && StatusAt(s, j) == Queued;
    assert queued <= Kin(s.store, t, "") by { hide Kin; }
    SmallerSet(queued, Kin(s.store, t, ""));
    hide *;
  }

  lemma GrazingAside(s: State, cfg: Config, t: TaskId, k: nat, script: seq<seq<Request>>)
    requires Grazing(s, cfg, t, k)
    ensures Grazing(s.(script := script), cfg, t, k)
  {
    hide Kin, StatusOf;
  }

  lemma AskedIs(t: TaskId)
    ensures var r := Asked(t, true); r.task == t && r.lone && !r.force && r.criterion == ""
  {
  }

  /** One more lone instance is planned. */
  lemma NewcomerInserted(s: State, cfg: Config, t: TaskId, k: nat)
    requires Grazing(s, cfg, t, k) && Shape(s)
    ensures Grazing(Insert(s, Asked(t, true), 0, 0), cfg, t, k)
  {
    var v := Insert(s, Asked(t, true), 0, 0);
    var r := Asked(t, true);
    AskedIs(t);
    NewArrival(s, r, 0);
    InsertKin(s, r, 0, 0);
    InsertEffect(s, r, 0, 0);
    assert v.busy == s.busy && v.again == s.again;
    hide Insert, Kin, Shape, IsHerder, SameSetting;
    forall j <- v.store | StatusOf(v.store[j]) == Queued ensures j in Kin(v.store, t, "") {
      assert j != s.next;
    }
  }

  lemma NewcomerJoins(v: State, cfg: Config, t: TaskId, k: nat, i: Id, z: State)
    requires Grazing(v, cfg, t, k) && i in v.store && StatusOf(v.store[i]) == Planned && 2 < i
    requires v.store[i].task == t && v.store[i].criterion == "" && v.store[i].herd == i
    requires z == v.(store := v.store[i := v.store[i].(queued := true)], live := v.live + {i})
    ensures Grazing(z, cfg, t, k + 1)
  {
    var kin := Kin(v.store, t, "");
    assert Kin(z.store, t, "") == kin + {i} && i !in kin;
    assert !v.store[i].force;
    hide Kin;
    OneMoreId(kin, i);
  }

  lemma FlockIsOld(s: State, cfg: Config, t: TaskId, k: nat)
    requires Grazing(s, cfg, t, k) && Shape(s)
    ensures 2 < s.next && 0 !in s.live
  {
    hide Coherent, StatusOf;
  }

  /** Below the limit of the task and that of the queue, it is queued. */
  lemma FlockGrows(s: State, cfg: Config, t: TaskId, k: nat)
    requires Inv(s, {}, false) && Grazing(s, cfg, t, k) && k < cfg.tasks[t].maxQueued <= cfg.maxQueued
    ensures Grazing(Apply(s, PlanEvent(Asked(t, true), 0, [])), cfg, t, k + 1)
  {
    hide *;
    var r := Asked(t, true);
    var w := s.(script := []);
    var v := Insert(w, r, 0, 0);
    var i := w.next;
    AskedIs(t);
    Scripted(s, [], false);
    InvShape(w, {}, false);
    GrazingAside(s, cfg, t, k, []);
    NewcomerInserted(w, cfg, t, k);
    GrazingParts(w, cfg, t, k);
    GrazingParts(v, cfg, t, k);
    NewArrival(w, r, 0);
    NewIsGuarded(w, r, 0, 0);
    FlockIsOld(w, cfg, t, k);
    InsertInv(w, r, 0, 0, {}, false);
    PlannedIsUnready(v, i);
    FlockIsQueue(v, cfg, t, k);
    MaxIs(v, i);
    PlanIs(s, r, []);
    PlanCases(w, r, 0, 0);
    TriggerCases(v, i);
    ArrivesFreely(v, i, false);
    NewcomerJoins(v, cfg, t, k, i, Enqueue(v, i));
  }

  /** When the flock is as large as the task allows, one more takes the place of its sheep. */
  lemma FlockIsTaken(s: State, cfg: Config, t: TaskId)
    requires Inv(s, {}, false) && t in cfg.tasks && Grazing(s, cfg, t, cfg.tasks[t].maxQueued) && Reachable(cfg, t)
    ensures TakesAll(s, 1, Asked(t, true))
  {
    var r := Asked(t, true);
    AskedIs(t);
    assert cfg.tasks[t].keepLast && 0 < cfg.tasks[t].maxQueued;
    hide *;
    InvShape(s, {}, false);
    GrazingParts(s, cfg, t, cfg.tasks[t].maxQueued);
    KinBelow(s, t, "");
    KnownIs(s, r);
    var kin := Kin(s.store, t, "");
    FirstIsLeast(kin, s.next, 2);
    AllAscending(kin, s.next);
    FirstGoes(Ascending(kin, s.next), s.next, cfg.tasks[t].maxQueued);
    DisplacedIs(s, r);
    OneIsAll(2);
    TakesAllCases(s, 1, r);
  }

  lemma AllAscending(ids: set<Id>, below: nat)
    requires forall j <- ids :: j < below
    ensures |Ascending(ids, below)| == |ids|
  {
    var order := Ascending(ids, below);
    assert Elems(order) == ids by {
      assert forall j <- ids :: j in order;
    }
    assert forall j, k :: 0 <= j < k < |order| ==> order[j] < order[k];
    hide *;
    DistinctElems(order);
  }

  lemma OneIsAll(d: Id)
    ensures {d} <= Elems([d]) && {d} != {}
  {
    assert [d][0] == d;
  }

  lemma FirstThen(s: State, e: Event, rest: seq<Event>)
    requires Enabled(s, e) && !e.ReloadEvent? && Possible(Apply(s, e), rest) && Fixed(rest)
    ensures Possible(s, [e] + rest) && Fixed([e] + rest) && After(s, [e] + rest) == After(Apply(s, e), rest)
  {
    assert ([e] + rest)[0] == e && ([e] + rest)[1..] == rest;
    hide Apply, Enabled;
  }

  lemma {:induction false} FlockFills(s: State, cfg: Config, t: TaskId, k: nat) returns (events: seq<Event>)
    requires Inv(s, {}, false) && t in cfg.tasks && Grazing(s, cfg, t, k)
    requires k <= cfg.tasks[t].maxQueued <= cfg.maxQueued
    ensures Possible(s, events) && Fixed(events) && Grazing(After(s, events), cfg, t, cfg.tasks[t].maxQueued)
    decreases cfg.tasks[t].maxQueued - k
  {
    if k == cfg.tasks[t].maxQueued {
      events := [];
    } else {
      hide *;
      var e := PlanEvent(Asked(t, true), 0, []);
      PlanIsEnabled(s, t, []);
      FlockGrows(s, cfg, t, k);
      ApplyKeeps(s, e, false);
      var rest := FlockFills(Apply(s, e), cfg, t, k + 1);
      FirstThen(s, e, rest);
      events := [e] + rest;
    }
  }

  lemma StopEventIs(s: State, i: Id, ok: bool, script: seq<seq<Request>>)
    requires i in s.busy && i in s.store
    ensures Enabled(s, StopEvent(i, ok, script))
    ensures Apply(s, StopEvent(i, ok, script)) == Stop(s.(script := script), i, ok)
  {
    hide Stop;
  }

  lemma AsksForNoForce(r: Request, ok: bool)
    requires !r.force
    ensures MeekEvent(StopEvent(1, ok, [[r]]))
  {
  }

  lemma ShepherdStops(s: State, cfg: Config, t: TaskId)
    requires Inv(s, {}, false) && t in cfg.tasks && Grazing(s, cfg, t, cfg.tasks[t].maxQueued) && Reachable(cfg, t)
    ensures var e := StopEvent(1, true, [[Asked(t, true)]]);
            Enabled(s, e) && Apply(s, e).again != [] && NoForce(Apply(s, e))
  {
    hide *;
    var e := StopEvent(1, true, [[Asked(t, true)]]);
    GrazingParts(s, cfg, t, cfg.tasks[t].maxQueued);
    AskedIs(t);
    AsksForNoForce(Asked(t, true), true);
    StopEventIs(s, 1, true, [[Asked(t, true)]]);
    FlockIsTaken(s, cfg, t);
    StoppedAgainExactly(s, 1, true, Asked(t, true));
    OnlyForcedRequestsForce(s, e);
  }

  lemma SettingIsEnabled(s: State, u: TaskId, h: HostId, target: string)
    ensures Enabled(s, HostsEvent({h}, map[target := [h]])) && Enabled(s, StartEvent([]))
    ensures Enabled(s, ReevaluateEvent([]))
  {
  }

  /** A flock of one grazes after five events. */
  lemma FlockGathers(cfg: Config, up: set<HostId>, order: map<string, seq<HostId>>, u: TaskId, h: HostId, t: TaskId)
      returns (events: seq<Event>)
    requires CanStart(cfg, u) && Carries(cfg, u, h) && t in cfg.tasks && 0 < cfg.maxQueued
    ensures Possible(Initial(cfg, up, order), events) && Fixed(events)
    ensures Grazing(After(Initial(cfg, up, order), events), cfg, t, 1)
  {
    var s := Initial(cfg, up, order);
    var hosts := HostsEvent({h}, map[cfg.tasks[u].target := [h]]);
    var plan, start := PlanEvent(Asked(u, true), 0, []), StartEvent([]);
    var sheep, reevaluate := PlanEvent(Asked(t, false), 1, []), ReevaluateEvent([]);
    hide *;
    InitialInv(cfg, up, order, false);
    SettingIsEnabled(s, u, h, cfg.tasks[u].target);
    HostComesUp(cfg, up, order, u, h);
    ApplyKeeps(s, hosts, false);
    var s1 := Apply(s, hosts);
    PlanIsEnabled(s1, u, []);
    FirstIsQueued(s1, cfg, u, h);
    var s2 := Apply(s1, plan);
    ApplyKeeps(s1, plan, false);
    SettingIsEnabled(s2, u, h, cfg.tasks[u].target);
    FirstRuns(s2, cfg, u, h);
    var s3 := Apply(s2, start);
    ApplyKeeps(s2, start, false);
    SheepPlanned(s3, cfg, u, t);
    var s4 := Apply(s3, sheep);
    ApplyKeeps(s3, sheep, false);
    SettingIsEnabled(s4, u, h, cfg.tasks[u].target);
    SheepReevaluated(s4, cfg, t);
    var s5 := Apply(s4, reevaluate);
    FlockGrazes(s5, cfg, t);
    NoEvents(s5);
    FirstThen(s4, reevaluate, []);
    FirstThen(s3, sheep, [reevaluate] + []);
    FirstThen(s2, start, [sheep] + ([reevaluate] + []));
    FirstThen(s1, plan, [start] + ([sheep] + ([reevaluate] + [])));
    FirstThen(s, hosts, [plan] + ([start] + ([sheep] + ([reevaluate] + []))));
    events := [hosts] + ([plan] + ([start] + ([sheep] + ([reevaluate] + []))));
  }

  lemma NoEvents(s: State)
    ensures Possible(s, []) && Fixed([]) && After(s, []) == s
  {
  }

  lemma RunCases(s: State, events: seq<Event>)
    requires Possible(s, events) && events != []
    ensures Enabled(s, events[0]) && Possible(Apply(s, events[0]), events[1..])
    ensures After(s, events) == After(Apply(s, events[0]), events[1..])
  {
    hide Apply, Enabled;
  }

  lemma {:induction false} ThenMore(s: State, first: seq<Event>, more: seq<Event>)
    requires Possible(s, first) && Fixed(first) && Possible(After(s, first), more) && Fixed(more)
    ensures Possible(s, first + more) && Fixed(first + more)
    ensures After(s, first + more) == After(After(s, first), more)
    decreases |first|
  {
    hide *;
    if first == [] {
      NoEvents(s);
      assert first + more == more;
    } else {
      RunCases(s, first);
      var t := Apply(s, first[0]);
      FixedRest(first);
      ThenMore(t, first[1..], more);
      FirstThen(s, first[0], first[1..] + more);
      assert [first[0]] + (first[1..] + more) == first + more;
    }
  }

  /** A run in which a herder is finished twice: it waits for the lowest of as many queued instances of a
      task as the task allows, and when its executor stops its actions ask for one more. */
  lemma FinishedTwice(cfg: Config, up: set<HostId>, order: map<string, seq<HostId>>, u: TaskId, t: TaskId)
      returns (events: seq<Event>)
    requires CanStart(cfg, u) && Reachable(cfg, t)
    ensures Possible(Initial(cfg, up, order), events) && Fixed(events)
    ensures NoForce(After(Initial(cfg, up, order), events)) && After(Initial(cfg, up, order), events).again != []
  {
    var h :| Carries(cfg, u, h);
    assert t in cfg.tasks && 1 <= cfg.tasks[t].maxQueued <= cfg.maxQueued;
    hide *;
    var s := Initial(cfg, up, order);
    var e := StopEvent(1, true, [[Asked(t, true)]]);
    var first := FlockGathers(cfg, up, order, u, h, t);
    var s5 := After(s, first);
    InitialInv(cfg, up, order, false);
    RunKeeps(s, first, false);
    var more := FlockFills(s5, cfg, t, 1);
    var s6 := After(s5, more);
    RunKeeps(s5, more, false);
    ShepherdStops(s6, cfg, t);
    ThenMore(s, first, more);
    PossibleSnoc(s, first + more, e);
    StillFixed(first + more, e);
    events := first + more + [e];
  }

  // ---------------------------------------------------------------------------------------------
  // Exactly when nothing is finished twice
  // ---------------------------------------------------------------------------------------------

  /** In no run of a configuration without forced instances is anything finished twice. */
  ghost predicate NeverTwice(cfg: Config, up: set<HostId>, order: map<string, seq<HostId>>) {
    forall events: seq<Event> |
      && Possible(Initial(cfg, up, order), events) && Fixed(events)
      && NoForce(After(Initial(cfg, up, order), events)) ::
      After(Initial(cfg, up, order), events).again == []
  }

  lemma OnceInRun(cfg: Config, up: set<HostId>, order: map<string, seq<HostId>>, events: seq<Event>)
    requires Possible(Initial(cfg, up, order), events) && Fixed(events)
    requires NoForce(After(Initial(cfg, up, order), events))
    requires Gentle(cfg) || NobodyCanStart(cfg)
    ensures After(Initial(cfg, up, order), events).again == []
  {
    var s := Initial(cfg, up, order);
    assert Resting(s) && s.cfg == cfg;
    hide *;
    InitialInv(cfg, up, order, true);
    if NobodyCanStart(cfg) {
      RunRests(s, events);
    } else {
      InvWeakens(s, {});
      FixedIsSteady(s, events);
      FixedIsGentle(events);
      NothingIsFinishedTwice(cfg, up, order, events);
    }
  }

  lemma FixedIsGentle(events: seq<Event>)
    requires Fixed(events)
    ensures forall e <- events :: GentleEvent(e)
  {
    hide Gentle;
  }

  /** Nothing is finished twice in any run of a configuration without forced instances if and only if no
      task that keeps its last instances can reach its limit, or no instance can start. */
  lemma NeverTwiceExactly(cfg: Config, up: set<HostId>, order: map<string, seq<HostId>>)
    ensures NeverTwice(cfg, up, order) <==> (forall t :: !Reachable(cfg, t)) || (forall u :: !CanStart(cfg, u))
  {
    assert (forall t :: !Reachable(cfg, t)) <==> Gentle(cfg);
    assert (forall u :: !CanStart(cfg, u)) <==> NobodyCanStart(cfg);
    if Gentle(cfg) || NobodyCanStart(cfg) {
      hide Possible, Fixed, NoForce, After, Initial, Gentle, NobodyCanStart, Reachable, CanStart;
      forall events: seq<Event> |
        && Possible(Initial(cfg, up, order), events) && Fixed(events)
        && NoForce(After(Initial(cfg, up, order), events))
        ensures After(Initial(cfg, up, order), events).again == []
      {
        OnceInRun(cfg, up, order, events);
      }
    } else {
      var t :| Reachable(cfg, t);
      var u :| CanStart(cfg, u);
      hide Possible, Fixed, NoForce, After, Initial, Reachable, CanStart;
      var events := FinishedTwice(cfg, up, order, u, t);
      assert After(Initial(cfg, up, order), events).again != [];
    }
  }
}
