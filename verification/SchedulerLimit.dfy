/** When the limit on queued duplicates holds in all runs of a configuration whose actions answer alike. */
module SchedulerLimit {
  import opened TaskStatus
  import opened SchedulerModel
  import opened SchedulerInvariants
  import opened SchedulerHerds
  import opened SchedulerBooks
  import opened SchedulerSteps
  import opened SchedulerActions
  import opened SchedulerRuns
  import opened SchedulerTheorems
  import opened SchedulerQueue
  import opened SchedulerLines
  import opened SchedulerForce
  import opened SchedulerShelter
  import opened SchedulerAgain
  import opened SchedulerCancel
  import opened SchedulerAnswers
  import opened SchedulerAlike
  import opened SchedulerDuplicates
  import opened SchedulerFindings
  import C = Conditions

  // ---------------------------------------------------------------------------------------------
  // A run that goes beyond the limit
  // ---------------------------------------------------------------------------------------------

  /** The instances of a task ask for nothing when planned, and for a sheep of their task when canceled. */
  function AsksForEwe(task: TaskId): Answers {
    Answers(_ => [], t => if t == task then [Asked(task, false)] else [])
  }

  lemma AsksForEweIs(task: TaskId)
    ensures AsksForEwe(task).onPlan(task) == [] && AsksForEwe(task).onCancel(task) == [Asked(task, false)]
    ensures !Asked(task, false).lone && Asked(task, false).task == task && !Asked(task, false).force
  {
  }

  /** All instances are unforced ones of one task and criterion. */
  ghost predicate OfOneKind(s: State, task: TaskId) {
    forall i <- s.store :: s.store[i].task == task && s.store[i].criterion == "" && !s.store[i].force
  }

  lemma SimpleKind(s: State, cfg: Config, task: TaskId, queued: set<Id>, planned: set<Id>)
    requires Simple(s, cfg, task, queued, planned)
    ensures OfOneKind(s, task) && Kin(s.store, task, "") == queued
  {
    hide StatusOf;
  }

  lemma KindIsUnforced(s: State, task: TaskId)
    requires OfOneKind(s, task)
    ensures NoForce(s)
  {
  }

  /** All queued instances are duplicates of each other. */
  lemma QueueOfOneKind(s: State, task: TaskId)
    requires OfOneKind(s, task)
    ensures QueueSize(s) <= |Kin(s.store, task, "")|
  {
    var queued := set j | j in s.live && j in s.store && StatusAt(s, j) == Queued;
    assert queued <= Kin(s.store, task, "");
    SmallerSet(queued, Kin(s.store, task, ""));
  }

  lemma InsertEwe(s: State, task: TaskId, h: Id)
    requires Shape(s) && OfOneKind(s, task) && IsHerder(s.store, h)
    ensures OfOneKind(Insert(s, Asked(task, false), h, h), task)
  {
    hide *;
    var herded := h in s.live && h in s.store;
    var inst := NewInst(s.next, Asked(task, false), h, herded, h);
    var t := Insert(s, Asked(task, false), h, h);
    NewEwe(s, task, h, herded);
    NewInstIsNewborn(s, Asked(task, false), h, h);
    EnterEffect(s, inst, h, herded);
    InsertEffect(s, Asked(task, false), h, h);
    KindSpreads(s, t, inst, task);
  }

  lemma NewEwe(s: State, task: TaskId, h: Id, herded: bool)
    requires herded == (h in s.live && h in s.store)
    ensures var inst := NewInst(s.next, Asked(task, false), h, herded, h);
            && inst.task == task && inst.criterion == "" && !inst.force
            && Insert(s, Asked(task, false), h, h) == Enter(s, inst, h, herded)
  {
    hide Conditions, Enter;
  }

  lemma KindSpreads(s: State, t: State, inst: Inst, task: TaskId)
    requires OfOneKind(s, task) && inst.task == task && inst.criterion == "" && !inst.force
    requires t.store.Keys == s.store.Keys + {s.next} && t.store[s.next] == inst
    requires forall i <- s.store :: i in t.store && SameButHerded(s.store[i], t.store[i])
    ensures OfOneKind(t, task)
  {
  }

  lemma EweIsAwaited(s: State, task: TaskId, h: Id)
    requires h in s.live && h in s.store
    ensures Get(Insert(s, Asked(task, false), h, h).awaited, h, {}) != {}
    ensures Insert(s, Asked(task, false), h, h).cfg == s.cfg
  {
    assert s.next in Get(Insert(s, Asked(task, false), h, h).awaited, h, {});
    hide NewInst;
  }

  /** The finish actions of a queued herder ask for a sheep, which it then awaits. */
  lemma EwePlanned(w: State, task: TaskId, h: Id)
    requires w.script == [[Asked(task, false)]] && h in w.store && h in w.live && w.store[h].herd == h
    requires task in w.cfg.tasks && task in w.enabled
    ensures Trigger(w, h) == Soil(Insert(w.(script := []), Asked(task, false), h, h), h)
  {
    hide *;
    var x := w.(script := []);
    AsksForEweIs(task);
    TriggerCases(w, h);
    assert [[Asked(task, false)]][1..] == [] && [Asked(task, false)][1..] == [];
    PlanAllCases(x, [Asked(task, false)], h);
    HerdOfEwe(x, task, h);
    PlanCases(x, Asked(task, false), h, h);
    TriggerCases(Insert(x, Asked(task, false), h, h), x.next);
    PlanAllCases(Plan(x, Asked(task, false), h, h), [], h);
  }

  lemma HerdOfEwe(s: State, task: TaskId, h: Id)
    requires h in s.store && s.store[h].herd == h
    ensures HerdFor(s, Asked(task, false), h) == h
  {
  }

  /** The herder awaits a sheep and stays as it is, and so do all others. */
  lemma EweKeepsHerder(s: State, cfg: Config, task: TaskId, queued: set<Id>, planned: set<Id>, d: Id)
    requires Inv(s, {}, false) && Simple(s, cfg, task, queued, planned) && d in queued
    requires s.script == [[Asked(task, false)]] && cfg.tasks[task].policy != NoWait
    ensures var x := Watch(s, d).(script := []);
            Cancel(s, d) == Soil(Soil(Insert(x, Asked(task, false), d, d), d), d)
    ensures var x := Watch(s, d).(script := []);
            Inv(x, {}, false) && Simple(x, cfg, task, queued, planned)
  {
    hide *;
    SimpleKnown(s, cfg, task, queued, planned);
    SimpleFacts(s, cfg, task, queued, planned, d);
    SimpleCancelHerd(s, cfg, task, queued, planned, d);
    CancelCases(s, d);
    var w := Watch(s, d);
    var x := w.(script := []);
    WatchOnlyStrays(s, d);
    WatchIndexes(s, d);
    WatchIsAside(s, d, {}, false);
    ScriptIsAside(w, [], {}, false);
    SimpleAside(s, cfg, task, queued, planned, x);
    StopHerderCases(s, d, false);
    EwePlanned(w, task, d);
    var t := Insert(x, Asked(task, false), d, d);
    InvShape(x, {}, false);
    SimpleFacts(x, cfg, task, queued, planned, d);
    InsertEffect(x, Asked(task, false), d, d);
    SameStatuses(x, t);
    EweIsAwaited(x, task, d);
    SoilFacts(t, d);
    WaitsFor(Soil(t, d), cfg, task, d);
  }

  lemma SoilFacts(s: State, h: Id)
    ensures Soil(s, h).store == s.store && Soil(s, h).awaited == s.awaited && Soil(s, h).cfg == s.cfg
    ensures Soil(s, h).live == s.live
  {
  }

  lemma WaitsFor(t: State, cfg: Config, task: TaskId, d: Id)
    requires t.cfg == cfg && task in cfg.tasks && cfg.tasks[task].policy != NoWait
    ensures PolicyOf(t, task) != NoWait
  {
  }

  lemma EweQueues(s: State, cfg: Config, task: TaskId, queued: set<Id>, planned: set<Id>, d: Id)
    requires Inv(s, {}, false) && Simple(s, cfg, task, queued, planned) && d in queued
    requires s.script == [[Asked(task, false)]] && cfg.tasks[task].policy != NoWait
    ensures var z := Cancel(s, d);
            && OfOneKind(z, task) && Kin(z.store, task, "") == queued && z.cfg == cfg
            && forall i <- s.store :: i in z.store && StatusOf(z.store[i]) == StatusOf(s.store[i])
  {
    hide *;
    var x := Watch(s, d).(script := []);
    var t := Insert(x, Asked(task, false), d, d);
    EweKeepsHerder(s, cfg, task, queued, planned, d);
    WatchIndexes(s, d);
    SimpleKnown(x, cfg, task, queued, planned);
    SimpleFacts(x, cfg, task, queued, planned, d);
    SimpleKind(x, cfg, task, queued, planned);
    InvShape(x, {}, false);
    InsertEwe(x, task, d);
    InsertKin(x, Asked(task, false), d, d);
    InsertEffect(x, Asked(task, false), d, d);
    EweIsAwaited(x, task, d);
    SoilFacts(t, d);
    SoilFacts(Soil(t, d), d);
    assert forall i <- s.store :: i in t.store && StatusOf(t.store[i]) == StatusOf(s.store[i]) by {
      SameStatuses(x, t);
    }
    assert OfOneKind(Cancel(s, d), task) by { SameKind(t, Cancel(s, d), task); }
  }

  lemma SameStatuses(s: State, t: State)
    requires forall i <- s.store :: i in t.store && SameButHerded(s.store[i], t.store[i])
    ensures forall i <- s.store ::
              i in t.store && StatusOf(t.store[i]) == StatusOf(s.store[i]) && t.store[i].task == s.store[i].task
  {
    hide StatusOf;
  }

  lemma SameKind(s: State, t: State, task: TaskId)
    requires OfOneKind(s, task) && t.store == s.store
    ensures OfOneKind(t, task)
  {
  }

  /** The arriving instance is queued all the same. */
  lemma OneMoreArrives(s: State, cfg: Config, task: TaskId, queued: set<Id>, a: Id)
    requires OfOneKind(s, task) && Kin(s.store, task, "") == queued && s.cfg == cfg && |queued| < cfg.maxQueued
    requires a in s.store && StatusOf(s.store[a]) == Planned
    ensures NoForce(Admit(s, a)) && |Kin(Admit(s, a).store, task, "")| == |queued| + 1
  {
    QueueOfOneKind(s, task);
    assert s.store[a].task == task && s.store[a].criterion == "" && !s.store[a].force;
    hide Kin, QueueSize, NoForce, StatusOf;
    AdmitIs(s, a);
    var t := Admit(s, a);
    NotKinIfPlanned(s, a, task, "");
    AdmittedQueued(s, a, t);
    AdmittedKin(s, a, t, task, "");
    OneMoreId(queued, a);
    assert OfOneKind(t, task);
    KindIsUnforced(t, task);
  }

  lemma AdmittedQueued(s: State, a: Id, t: State)
    requires a in s.store && StatusOf(s.store[a]) == Planned && t.store == s.store[a := s.store[a].(queued := true)]
    ensures a in t.store && StatusOf(t.store[a]) == Queued
  {
  }

  /** The event: an instance arrives at the limit, and the one that was to go awaits a sheep instead. */
  lemma BothStay(s: State, cfg: Config, task: TaskId, queued: set<Id>, d: Id)
    requires Inv(s, {}, false) && Simple(s, cfg, task, queued, {}) && d in queued && (forall i <- queued :: d <= i)
    requires 0 < cfg.tasks[task].maxQueued && cfg.tasks[task].keepLast && cfg.tasks[task].policy != NoWait
    requires |queued| == cfg.tasks[task].maxQueued < cfg.maxQueued
    ensures var e := PlanEvent(Asked(task, true), 0, [[], [Asked(task, false)]]);
            && EventAlike(s, e, AsksForEwe(task)) && NoForce(Apply(s, e))
            && |Kin(Apply(s, e).store, task, "")| == |queued| + 1
  {
    hide *;
    var script := [[], [Asked(task, false)]];
    var act := AsksForEwe(task);
    var u := s.(script := script);
    var i := Insert(u, Asked(task, true), 0, 0);
    var a := u.next;
    var t := i.(script := [[Asked(task, false)]]);
    assert script[0] == [] && script[1..] == [[Asked(task, false)]];
    PlanIs(s, Asked(task, true), script);
    LoneTask(task);
    AsksForEweIs(task);
    Scripted(s, script, false);
    InsertInv(u, Asked(task, true), 0, 0, {}, false);
    ScriptIsAside(i, [[Asked(task, false)]], {}, false);
    SimpleAside(s, cfg, task, queued, {}, u);
    SimpleKnown(u, cfg, task, queued, {});
    SimpleInsert(u, cfg, task, queued, {}, 0);
    assert {} + {a} == {a};
    SimpleAside(i, cfg, task, queued, {a}, t);
    LonePlan(u, cfg, task, queued, {}, 0);
    TriggerCases(i, a);
    PlanAllCases(t, [], a);
    Arrives(t, cfg, task, queued, {a}, a, d);
    EweQueues(t, cfg, task, queued, {a}, d);
    SimpleFacts(t, cfg, task, queued, {a}, a);
    OneMoreArrives(Cancel(t, d), cfg, task, queued, a);
    NothingAsked(i, a, [[Asked(task, false)]], act);
    EweArrivesAlike(t, cfg, task, queued, a, d);
    PlanIsAlike(u, Asked(task, true), 0, 0, act);
    PlanEventAlike(s, Asked(task, true), script, act);
  }

  lemma NothingAsked(s: State, i: Id, rest: seq<seq<Request>>, act: Answers)
    requires s.script == [[]] + rest
    ensures Answered(s, i, [], act)
  {
  }

  lemma EweArrivesAlike(t: State, cfg: Config, task: TaskId, queued: set<Id>, a: Id, d: Id)
    requires Simple(t, cfg, task, queued, {a}) && d in queued && (forall i <- queued :: d <= i)
    requires 0 < cfg.tasks[task].maxQueued && cfg.tasks[task].keepLast && t.script == [[Asked(task, false)]]
    requires |queued| == cfg.tasks[task].maxQueued
    ensures EnqueueAlike(t, a, AsksForEwe(task))
  {
    hide *;
    var act := AsksForEwe(task);
    SimpleKnown(t, cfg, task, queued, {a});
    assert a in t.live && d in t.live;
    SimpleFacts(t, cfg, task, queued, {a}, a);
    SimpleFacts(t, cfg, task, queued, {a}, d);
    SimpleSurplus(t, cfg, task, queued, {a}, a);
    forall j <- queued ensures d <= j < t.next {
      SimpleKnown(t, cfg, task, queued, {a});
      SimpleFacts(t, cfg, task, queued, {a}, j);
    }
    FirstIsLeast(queued, t.next, d);
    EweCancelAlike(t, cfg, task, queued, a, d);
    NobodyAlike(Cancel(t, d), act);
    assert [d][1..] == [];
    OneCanceledAlike(t, [d], act);
    EnqueueIsAlike(t, a, act);
  }

  lemma OneCanceledAlike(s: State, ids: seq<Id>, act: Answers)
    requires ids != [] && CancelAlike(s, ids[0], act) && CancelAllAlike(Cancel(s, ids[0]), ids[1..], act)
    ensures CancelAllAlike(s, ids, act)
  {
    hide CancelAlike, Cancel;
  }

  lemma EweCancelAlike(t: State, cfg: Config, task: TaskId, queued: set<Id>, a: Id, d: Id)
    requires Simple(t, cfg, task, queued, {a}) && d in queued && t.script == [[Asked(task, false)]]
    ensures CancelAlike(t, d, AsksForEwe(task))
  {
    hide *;
    var act := AsksForEwe(task);
    var w := Watch(t, d);
    SimpleKnown(t, cfg, task, queued, {a});
    SimpleFacts(t, cfg, task, queued, {a}, d);
    SimpleCancelHerd(t, cfg, task, queued, {a}, d);
    WatchIndexes(t, d);
    AsksForEweIs(task);
    EweAnswered(w, task, d, act);
    CancelIsAlike(t, d, act);
  }

  lemma CancelIsAlike(s: State, d: Id, act: Answers)
    requires d in s.store && CancelHerd(s, d) == s && !s.store[d].started
    requires Answered(Watch(s, d), d, act.onCancel(s.store[d].task), act)
    ensures CancelAlike(s, d, act)
  {
    hide Answered, Inside, Watch, CancelHerd, StatusOf;
  }

  lemma EweAnswered(w: State, task: TaskId, h: Id, act: Answers)
    requires w.script == [[Asked(task, false)]] && h in w.store && h in w.live && w.store[h].herd == h
    requires act.onPlan(task) == []
    ensures Answered(w, h, [Asked(task, false)], act)
  {
    hide *;
    var x := w.(script := []);
    AsksForEweIs(task);
    assert [[Asked(task, false)]][1..] == [] && [Asked(task, false)][1..] == [];
    HerdOfEwe(x, task, h);
    NoAnswer(Insert(x, Asked(task, false), h, h), x.next, act);
    PlanIsAlike(x, Asked(task, false), h, h, act);
    OneAnswer(w, h, Asked(task, false), act);
  }

  lemma OneAnswer(w: State, h: Id, req: Request, act: Answers)
    requires var x := w.(script := []); w.script == [[req]] && PlanAlike(x, req, HerdFor(x, req, h), h, act)
    ensures Answered(w, h, [req], act)
  {
    var x := w.(script := []);
    assert [[req]][1..] == [] && [req][1..] == [];
    assert PlanAllAlike(Plan(x, req, HerdFor(x, req, h), h), [], h, act);
    assert PlanAllAlike(x, [req], h, act) by { hide PlanAlike, HerdFor, Plan; }
    hide PlanAlike, HerdFor, Plan, PlanAllAlike;
  }

  /** A run whose actions answer alike, in which more instances are queued than a task with herds allows. */
  lemma BeyondLimit(cfg: Config, up: set<HostId>, order: map<string, seq<HostId>>, task: TaskId)
      returns (events: seq<Event>)
    requires task in cfg.tasks && 0 < cfg.tasks[task].maxQueued < cfg.maxQueued && cfg.tasks[task].keepLast
    requires cfg.tasks[task].policy != NoWait
    ensures Possible(Initial(cfg, up, order), events) && AlikeTo(Initial(cfg, up, order), events, AsksForEwe(task))
    ensures NoForce(After(Initial(cfg, up, order), events))
    ensures |Kin(After(Initial(cfg, up, order), events).store, task, "")| > cfg.tasks[task].maxQueued
  {
    hide *;
    var act := AsksForEwe(task);
    AsksForEweIs(task);
    var s := Initial(cfg, up, order);
    var before, queued := FillQueue(cfg, up, order, task, cfg.tasks[task].maxQueued, act);
    var t := After(s, before);
    InitialInv(cfg, up, order, false);
    RunKeeps(s, before, false);
    var e := PlanEvent(Asked(task, true), 0, [[], [Asked(task, false)]]);
    PlanIsEnabled(t, task, [[], [Asked(task, false)]]);
    SimpleNext(t, cfg, task, queued);
    BothStay(t, cfg, task, queued, 1);
    AlikeSnoc(s, before, e, act);
    events := before + [e];
  }

  // ---------------------------------------------------------------------------------------------
  // Actions that never end
  // ---------------------------------------------------------------------------------------------

  /** A herder arrives in a full queue, and the instances of its task that are canceled ask for another
      one like it: no finite sequence of answers is that of such actions, each new instance makes one go
      that asks for the next. */
  lemma OwnPlanNeverEnds(s: State, i: Id, r: Request, act: Answers, limbo: set<Id>, steady: bool)
    requires Inv(s, limbo, steady) && Settled(s, limbo) && Guarded(s, i) && IsHerder(s.store, i) && Meek(s)
    requires Known(s, r) && r.lone && r.task == s.store[i].task && r.criterion == s.store[i].criterion
    requires r in act.onCancel(r.task) && Full(s, QueueOf(r.task, r.criterion))
    ensures !EnqueueAlike(s, i, act)
  {
    hide *;
    var p := QueueOf(r.task, r.criterion);
    if EnqueueAlike(s, i, act) {
      EnqueueMeek(s, i, limbo, steady);
      MeekIsUnforced(s, i);
      MeekIsUnforced(Enqueue(s, i), i);
      KnownIs(s, r);
      OwnPlanCloses(s, act, r);
      PlannedIsUnready(s, i);
      NobodyFits(s);
      OneMoreFull(s, {}, p);
      assert {} + {p} == {p};
      ReadyParts(s, {p}, {}, limbo, steady);
      EnqueueHolds(s, i, act, {p}, {}, limbo, steady);
    }
  }

  lemma OwnPlanCloses(s: State, act: Answers, r: Request)
    requires Known(s, r) && r.lone && r in act.onCancel(r.task)
    ensures var p := QueueOf(r.task, r.criterion); Closes(s, act, {p}, p)
  {
    var p := QueueOf(r.task, r.criterion);
    forall more: set<Place> | {p} <= more && p in more ensures forall q <- {p} :: LeadsFrom(s, act, more, q) {
      assert r in AnswerAt(act, p) && Leads(s, more, r);
    }
  }

  lemma NobodyFits(s: State)
    ensures Fit(s, {}) && AllFull(s, {})
  {
  }

  lemma MeekIsUnforced(s: State, i: Id)
    requires Meek(s)
    ensures NoForce(s) && (i in s.store ==> !s.store[i].force)
  {
  }

  // ---------------------------------------------------------------------------------------------
  // All runs whose actions answer alike
  // ---------------------------------------------------------------------------------------------

  /** In every run without forced instances whose actions answer alike, the task is within its limit. */
  ghost predicate WithinLimit(cfg: Config, up: set<HostId>, order: map<string, seq<HostId>>, task: TaskId)
    requires task in cfg.tasks
  {
    forall events: seq<Event>, criterion |
      && Possible(Initial(cfg, up, order), events) && Alike(Initial(cfg, up, order), events)
      && NoForce(After(Initial(cfg, up, order), events)) ::
      |Kin(After(Initial(cfg, up, order), events).store, task, criterion)| <= cfg.tasks[task].maxQueued
  }

  lemma HoldsIfAlike(cfg: Config, up: set<HostId>, order: map<string, seq<HostId>>, events: seq<Event>,
                     task: TaskId, criterion: string)
    requires Possible(Initial(cfg, up, order), events) && Alike(Initial(cfg, up, order), events)
    requires NoForce(After(Initial(cfg, up, order), events))
    requires task in cfg.tasks && 0 < cfg.tasks[task].maxQueued
    requires !cfg.tasks[task].keepLast || cfg.maxQueued <= cfg.tasks[task].maxQueued || cfg.tasks[task].policy == NoWait
    ensures |Kin(After(Initial(cfg, up, order), events).store, task, criterion)| <= cfg.tasks[task].maxQueued
  {
    AlikeIsFixed(Initial(cfg, up, order), events);
    assert Fixed(events);
    hide Possible, Initial, After, NoForce, Kin, Alike, Fixed;
    if !cfg.tasks[task].keepLast || cfg.maxQueued <= cfg.tasks[task].maxQueued {
      HoldsInRun(cfg, up, order, events, task, criterion);
    } else {
      WithinLimitAlike(cfg, up, order, events, task, criterion);
    }
  }

  /** When actions answer alike: a task that limits its queued instances is within its limit in all runs
      of a configuration without forced instances if and only if it does not keep the last ones, or its
      limit is no lower than that on all queued instances, or its herders do not wait for sheep. */
  lemma WithinLimitExactly(cfg: Config, up: set<HostId>, order: map<string, seq<HostId>>, task: TaskId)
    requires task in cfg.tasks && 0 < cfg.tasks[task].maxQueued
    ensures WithinLimit(cfg, up, order, task)
       <==> || !cfg.tasks[task].keepLast || cfg.maxQueued <= cfg.tasks[task].maxQueued
            || cfg.tasks[task].policy == NoWait
  {
    hide Possible, After, Initial, NoForce, Kin, Alike, AlikeTo;
    if || !cfg.tasks[task].keepLast || cfg.maxQueued <= cfg.tasks[task].maxQueued
       || cfg.tasks[task].policy == NoWait
    {
      forall events: seq<Event>, criterion |
        && Possible(Initial(cfg, up, order), events) && Alike(Initial(cfg, up, order), events)
        && NoForce(After(Initial(cfg, up, order), events))
        ensures |Kin(After(Initial(cfg, up, order), events).store, task, criterion)| <= cfg.tasks[task].maxQueued
      {
        HoldsIfAlike(cfg, up, order, events, task, criterion);
      }
    } else {
      var events := BeyondLimit(cfg, up, order, task);
      AlikeToIsAlike(Initial(cfg, up, order), events, AsksForEwe(task));
      assert |Kin(After(Initial(cfg, up, order), events).store, task, "")| > cfg.tasks[task].maxQueued;
    }
  }
}
