/** Runs on which the scheduler does not do what its other steps suggest, and exactly when. */
module SchedulerFindings {
  import opened TaskStatus
  import opened SchedulerModel
  import opened SchedulerInvariants
  import opened SchedulerHerds
  import opened SchedulerBooks
  import opened SchedulerSteps
  import opened SchedulerActions
  import opened SchedulerRuns
  import opened SchedulerTheorems
  import opened SchedulerQueue
  import opened SchedulerShelter
  import opened SchedulerAgain
  import opened SchedulerCancel
  import C = Conditions

  // ---------------------------------------------------------------------------------------------
  // A cancellation that is lost
  // ---------------------------------------------------------------------------------------------

  function Asked(task: TaskId, lone: bool): Request {
    Request(task, false, lone, "", C.NullCondition, C.NullCondition)
  }

  const PATIENT := Task(1, map[], "x", AllSuccess, 0, false)
  const SMALL := Config(map["a" := PATIENT], map["x" := map[]], 1, 10)

  /** Instance 1 of task "a" is queued, and is all there is. */
  ghost predicate OneQueued(s: State) {
    && s.cfg == SMALL && s.enabled == {"a"} && s.next == 2
    && s.live == {1} && s.store.Keys == {1} && s.awaited == map[] && s.herds == map[]
    && s.store[1].herd == 1 && s.store[1].task == "a" && StatusOf(s.store[1]) == Queued
  }

  /** A lone instance is queued as soon as it is planned. */
  lemma OnePlanned(s: State)
    requires s == Initial(SMALL, {"x"}, map[])
    ensures OneQueued(Apply(s, PlanEvent(Asked("a", true), 0, [])))
  {
    var u := Insert(s, Asked("a", true), 0, 0);
    var inst := u.store[1];
    assert s.(script := []) == s;
    assert inst.task == "a" && inst.herd == 1 && StatusOf(inst) == Planned && !inst.force;
    assert u.store.Keys == {1} && u.live == {1};
    assert Apply(s, PlanEvent(Asked("a", true), 0, [])) == Plan(s, Asked("a", true), 0, 0);
    PlanCases(s, Asked("a", true), 0, 0);
    TriggerCases(u, 1);
    EnqueueCases(u, 1);
    assert MaxQueued(u, 1) == 0;
    hide Insert, Plan, Trigger, Enqueue, Apply;
    assert (set j | j in u.live && j in u.store && StatusAt(u, j) == Queued) == {};
    assert QueueSize(u) == 0;
  }

  lemma NoSheepToCancel(s: State)
    requires OneQueued(s)
    ensures CancelHerd(s, 1) == s
  {
    assert Sheep(s, 1) == {};
    assert Ascending({}, 2) == [];
  }

  /** Its finish actions plan a sheep. */
  lemma SheepArrives(s: State)
    requires OneQueued(s) && s.script == [[Asked("a", false)]]
    ensures var t := Trigger(s, 1);
            && 1 in t.store && t.store[1].task == "a" && StatusOf(t.store[1]) == Queued && t.cfg == SMALL
            && Get(t.awaited, 1, {}) == {2}
  {
    var w := s.(script := []);
    var req := Asked("a", false);
    assert s.script[1..] == [] && [req][1..] == [];
    TriggerCases(s, 1);
    PlanAllCases(w, [req], 1);
    assert HerdFor(w, req, 1) == 1;
    PlanCases(w, req, 1, 1);
    var u := Insert(w, req, 1, 1);
    TriggerCases(u, 2);
    var v := Soil(u, 1);
    PlanAllCases(v, [], 1);
    assert u.store[1] == w.store[1].(herded := w.store[1].herded + {2});
    assert Get(u.awaited, 1, {}) == {} + {2};
    hide Insert, Trigger, Plan, PlanAll;
  }

  lemma CancelChangesNothing(s: State)
    requires OneQueued(s)
    ensures var t := Apply(s, CancelEvent(1, [[Asked("a", false)]]));
            1 in t.store && StatusOf(t.store[1]) == Queued
  {
    var u := s.(script := [[Asked("a", false)]]);
    var w := Watch(u, 1);
    assert OneQueued(u) && OneQueued(w) && w.script == u.script;
    assert Apply(s, CancelEvent(1, [[Asked("a", false)]])) == Cancel(u, 1);
    NoSheepToCancel(u);
    CancelCases(u, 1);
    SheepArrives(w);
    StopHerderCases(u, 1, false);
    hide Apply, Trigger, Cancel, StopHerder, Watch, OneQueued;
  }

  /** A herder is queued, then canceled; its finish actions plan a sheep: it is still queued, and
      still to be started. */
  lemma CancellationIsLost()
    ensures var s := Initial(SMALL, {"x"}, map[]);
            var events := [PlanEvent(Asked("a", true), 0, []), CancelEvent(1, [[Asked("a", false)]])];
            Possible(s, events) && 1 in After(s, events).store && StatusOf(After(s, events).store[1]) == Queued
  {
    var s := Initial(SMALL, {"x"}, map[]);
    var plan, cancel := PlanEvent(Asked("a", true), 0, []), CancelEvent(1, [[Asked("a", false)]]);
    assert Enabled(s, plan) && Enabled(Apply(s, plan), cancel);
    hide *;
    OnePlanned(s);
    var t := Apply(s, plan);
    CancelChangesNothing(t);
    RunThrough([s, t, Apply(t, cancel)], [plan, cancel]);
  }

  // ---------------------------------------------------------------------------------------------
  // A herder finished twice
  // ---------------------------------------------------------------------------------------------

  const SHEEP := Task(1, map[], "x", OwnStatus, 1, true)
  const FARM := Config(map["a" := PATIENT, "s" := SHEEP], map["x" := map[]], 1, 10)

  /** Instance 1 of task "a" is queued. */
  ghost predicate HerderQueued(s: State) {
    && s.cfg == FARM && s.enabled == {"a", "s"} && s.up == {"x"} && s.next == 2
    && s.live == {1} && s.store.Keys == {1} && s.awaited == map[] && s.herds == map[]
    && s.store[1].herd == 1 && s.store[1].task == "a" && !s.store[1].force && StatusOf(s.store[1]) == Queued
    && s.count == map[] && |s.idle| == 1 && s.again == []
  }

  lemma FarmPlansHerder(s: State)
    requires s == Initial(FARM, {"x"}, map[])
    ensures Enabled(s, PlanEvent(Asked("a", true), 0, []))
    ensures HerderQueued(Apply(s, PlanEvent(Asked("a", true), 0, [])))
  {
    var u := Insert(s, Asked("a", true), 0, 0);
    var inst := u.store[1];
    assert s.(script := []) == s && s.enabled == {"a", "s"};
    assert inst.task == "a" && inst.herd == 1 && StatusOf(inst) == Planned && !inst.force;
    assert u.store.Keys == {1} && u.live == {1};
    assert Apply(s, PlanEvent(Asked("a", true), 0, [])) == Plan(s, Asked("a", true), 0, 0);
    PlanCases(s, Asked("a", true), 0, 0);
    TriggerCases(u, 1);
    EnqueueCases(u, 1);
    assert MaxQueued(u, 1) == 0;
    hide Insert, Plan, Trigger, Enqueue, Apply;
    assert (set j | j in u.live && j in u.store && StatusAt(u, j) == Queued) == {};
    assert QueueSize(u) == 0;
  }

  /** It runs. */
  ghost predicate HerderRuns(s: State) {
    && s.cfg == FARM && s.enabled == {"a", "s"} && s.next == 2
    && s.live == {1} && s.store.Keys == {1} && s.awaited == map[] && s.herds == map[]
    && s.store[1].herd == 1 && s.store[1].task == "a" && StatusOf(s.store[1]) == Running
    && s.count == map["a" := 1] && 1 in s.busy && s.again == []
  }

  lemma FarmLaunches(s: State)
    requires HerderQueued(s)
    ensures HerderRuns(Launch(s, 1, "x"))
  {
    assert ResourcesOf(s.cfg, "a") == map[];
    assert Launch(s, 1, "x").count == map["a" := 1];
  }

  lemma FarmFindsHost(s: State)
    requires HerderQueued(s)
    ensures Start(s, 1) == Trigger(Launch(s, 1, "x"), 1)
  {
    hide Trigger, Launch;
    assert Candidates(s, "x") == ["x"];
    assert Suits(s, "x", map[], false);
    assert Choose(s, ["x"], map[], false) == ["x"];
  }

  lemma OnlyOne()
    ensures Ascending({1}, 2) == [1] && [1][1..] == []
  {
    UpToOne({1});
    hide *;
  }

  lemma UpToOne(ids: set<Id>)
    requires ids == {1}
    ensures Ascending(ids, 2) == [1]
  {
    AscendingStep(ids, 0);
    AscendingStep(ids, 1);
    hide *;
    assert 0 !in ids && 1 in ids;
  }

  lemma FarmStarts(s: State)
    requires HerderQueued(s)
    ensures Enabled(s, StartEvent([])) && HerderRuns(Apply(s, StartEvent([])))
  {
    var t := s.(script := []);
    FarmLaunches(t);
    FarmFindsHost(t);
    TriggerCases(Launch(t, 1, "x"), 1);
    LaunchScript(t, 1, "x");
    StartAllCases(t, [1]);
    OnlyOne();
    StartNobody(Start(t, 1));
    assert Apply(s, StartEvent([])) == StartAll(t, Ascending({1}, 2)) by {
      hide StartAll, Ascending;
    }
    hide *;
  }

  lemma LaunchScript(s: State, i: Id, h: HostId)
    ensures Launch(s, i, h).script == s.script
  {
    hide *;
  }

  /** It runs, and has a sheep of task "s". */
  ghost predicate SheepIs(s: State, status: Status) {
    && s.cfg == FARM && s.enabled == {"a", "s"} && s.next == 3
    && s.live == {1, 2} && s.store.Keys == {1, 2} && Get(s.awaited, 1, {}) == {2} && Get(s.herds, 1, {}) == {2}
    && s.store[1].herd == 1 && s.store[1].task == "a" && StatusOf(s.store[1]) == Running
    && s.store[2].herd == 1 && s.store[2].task == "s" && !s.store[2].force && s.store[2].criterion == ""
    && s.store[2].queuewhen == C.TaskWait(C.AllStarted, {0}) && StatusOf(s.store[2]) == status
    && s.count == map["a" := 1] && 1 in s.busy && s.again == [] && 1 in s.awaited
  }

  lemma FarmPlansSheep(s: State)
    requires HerderRuns(s)
    ensures Enabled(s, PlanEvent(Asked("s", false), 1, []))
    ensures var t := Apply(s, PlanEvent(Asked("s", false), 1, []));
            SheepIs(t, Planned) && 1 in t.dirty
  {
    var w := s.(script := []);
    var req := Asked("s", false);
    var u := Insert(w, req, 1, 0);
    assert u.store[2] == NewInst(2, req, 1, true, 0);
    assert u.store[1] == w.store[1].(herded := w.store[1].herded + {2});
    assert Get(u.awaited, 1, {}) == {} + {2} && Get(u.herds, 1, {}) == {} + {2};
    assert u.store.Keys == {1, 2} && u.live == {1, 2};
    PlanCases(w, req, 1, 0);
    TriggerCases(u, 2);
    assert Apply(s, PlanEvent(req, 1, [])) == Plan(w, req, 1, 0);
    hide Insert, Plan, Trigger, Apply;
  }

  lemma FarmQueuesSheep(s: State)
    requires SheepIs(s, Planned)
    ensures SheepIs(Enqueue(s, 2), Queued) && Enqueue(s, 2).script == s.script
  {
    EnqueueCases(s, 2);
    assert MaxQueued(s, 2) == 1;
    assert Rivals(s, 2) == {};
    assert Ascending({}, 3) == [];
    assert Duplicates(s, 2) == [2];
    CancelAllCases(s, []);
    assert (set j | j in s.live && j in s.store && StatusAt(s, j) == Queued) == {};
    assert QueueSize(s) == 0;
    assert s.live + {2} == s.live;
    hide Enqueue, CancelAll, Duplicates, Ascending, QueueSize;
  }

  lemma ParentIsNoSheep(s: State)
    requires 0 !in s.store
    ensures C.Holds(C.TaskWait(C.AllStarted, {0}), Herded(s, 1))
  {
    hide StatusOf;
    assert C.Awaited({0}, Herded(s, 1)) == map[];
  }

  lemma FarmEvaluates(s: State)
    requires SheepIs(s, Planned)
    ensures Reevaluate(s, 1) == s && Reevaluate(s, 2) == Enqueue(s, 2)
  {
    ParentIsNoSheep(s);
    hide Enqueue, Cancel, C.Holds, Herded;
  }

  lemma AscendingStep(ids: set<Id>, n: nat)
    ensures Ascending(ids, n + 1) == if n in ids then Ascending(ids, n) + [n] else Ascending(ids, n)
    ensures Ascending(ids, 0) == []
  {
  }

  lemma TwoOfThem()
    ensures Ascending({1, 2}, 3) == [1, 2] && [1, 2][1..] == [2] && [2][1..] == []
  {
    UpToTwo({1, 2});
    hide *;
  }

  lemma UpToTwo(ids: set<Id>)
    requires ids == {1, 2}
    ensures Ascending(ids, 3) == [1, 2]
  {
    AscendingStep(ids, 0);
    AscendingStep(ids, 1);
    AscendingStep(ids, 2);
    hide *;
    assert 0 !in ids && 1 in ids && 2 in ids;
  }

  lemma FarmReevaluates(s: State)
    requires SheepIs(s, Planned) && 1 in s.dirty
    ensures Enabled(s, ReevaluateEvent([])) && SheepIs(Apply(s, ReevaluateEvent([])), Queued)
  {
    var t := s.(script := [], dirty := {});
    FarmEvaluates(t);
    FarmQueuesSheep(t);
    ReevaluateAllCases(t, [1, 2], s.dirty);
    ReevaluateAllCases(t, [2], s.dirty);
    TwoOfThem();
    StartNobody(Enqueue(t, 2));
    assert Apply(s, ReevaluateEvent([])) == ReevaluateAll(t, Ascending({1, 2}, 3), s.dirty) by {
      hide ReevaluateAll, Ascending;
    }
    assert Data(t, 1).herd == 1 && Data(t, 2).herd == 1;
    hide *;
  }

  /** The herder stopped; another instance of task "s" has been planned. */
  ghost predicate NewcomerArrived(s: State) {
    && s.cfg == FARM && s.enabled == {"a", "s"} && s.next == 4
    && s.live == {1, 2, 3} && s.store.Keys == {1, 2, 3} && Get(s.awaited, 1, {}) == {2} && Get(s.herds, 1, {}) == {2}
    && s.store[1].herd == 1 && s.store[1].task == "a" && StatusOf(s.store[1]) == Waiting
    && s.store[2].herd == 1 && s.store[2].task == "s" && StatusOf(s.store[2]) == Queued && s.store[2].criterion == ""
    && s.store[3].herd == 3 && s.store[3].task == "s" && StatusOf(s.store[3]) == Planned && s.store[3].criterion == ""
    && !s.store[3].force && s.count == map["a" := 1] && s.again == [] && 1 in s.awaited
  }

  lemma NewcomerTakesOver(s: State)
    requires NewcomerArrived(s)
    ensures Enqueue(s, 3) == Admit(Cancel(s, 2), 3)
  {
    hide *;
    EnqueueCases(s, 3);
    NewcomersRival(s);
    SurplusOfTwo();
    assert [2][1..] == [] && 3 !in [2];
    CancelAllCases(s, [2]);
    CancelAllCases(Cancel(s, 2), []);
  }

  lemma NewcomersRival(s: State)
    requires NewcomerArrived(s)
    ensures Duplicates(s, 3) == [2, 3] && MaxQueued(s, 3) == 1 && KeepLast(s, 3)
    ensures !Data(s, 3).force && Data(s, 3).task in s.enabled
  {
    hide *;
    NewcomersTask(s);
    NewcomersDuplicates(s);
  }

  lemma NewcomersTask(s: State)
    requires NewcomerArrived(s)
    ensures MaxQueued(s, 3) == 1 && KeepLast(s, 3) && !Data(s, 3).force && Data(s, 3).task in s.enabled
  {
  }

  lemma NewcomersDuplicates(s: State)
    requires NewcomerArrived(s)
    ensures Duplicates(s, 3) == [2, 3]
  {
    hide *;
    NewcomersRivals(s);
    OnlyTwo(Rivals(s, 3));
    DuplicatesAre(s, 3);
  }

  lemma DuplicatesAre(s: State, i: Id)
    ensures Duplicates(s, i) == Ascending(Rivals(s, i), s.next) + [i]
  {
    hide Ascending, Rivals;
  }

  lemma NewcomersRivals(s: State)
    requires NewcomerArrived(s)
    ensures Rivals(s, 3) == {2} && s.next == 4
  {
  }

  lemma OnlyTwo(ids: set<Id>)
    requires ids == {2}
    ensures Ascending(ids, 4) == [2]
  {
    AscendingStep(ids, 0);
    AscendingStep(ids, 1);
    AscendingStep(ids, 2);
    AscendingStep(ids, 3);
    hide *;
    assert 0 !in ids && 1 !in ids && 2 in ids && 3 !in ids;
  }

  lemma SurplusOfTwo()
    ensures Surplus([2, 3], 1, true) == [2]
  {
  }

  /** The last awaited sheep is canceled: the waiting herder is finished, and gone. */
  ghost predicate HerderEnded(s: State) {
    && s.cfg == FARM && 1 !in s.live && 1 in s.store && s.store[1].herd == 1 && s.store[1].task == "a"
    && s.store[1].started && Finished(StatusOf(s.store[1])) && Get(s.awaited, 1, {}) == {}
    && Get(s.count, "a", 0) == 0 && s.again == []
  }

  lemma LastSheepGoes(s: State)
    requires NewcomerArrived(s)
    ensures HerderEnded(Cancel(s, 2))
  {
    var c := Close(s, 2, false);
    var u := Unawait(c, 2);
    assert Cancel(s, 2) == DropSheep(s, 2, false) by { CancelCases(s, 2); }
    assert c == s.(store := s.store[2 := c.store[2]]) && c.store[2].herd == 1 && StatusOf(c.store[2]) == Canceled;
    assert Forget(c, 2) == c;
    assert Get(u.awaited, 1, {}) == {2} - {2};
    assert Release(c, 2) == FinishHerder(u, 1, false);
    hide Cancel, DropSheep, Release, Forget, Close;
    HerderGoes(u);
  }

  lemma HerderGoes(s: State)
    requires s.cfg == FARM && 1 in s.live && 1 in s.store && s.store[1].herd == 1 && s.store[1].task == "a"
    requires StatusOf(s.store[1]) == Waiting && s.count == map["a" := 1] && s.again == []
    ensures HerderEnded(FinishHerder(s, 1, false))
  {
    hide Judge, Herded;
    assert s.store[1].started;
    var c := Close(s, 1, false);
    assert c.store[1].finished && c.store[1].started && c.store[1].herd == 1;
    hide Credited, Sheep;
  }

  lemma EndedStays(s: State)
    requires HerderEnded(s)
    ensures HerderEnded(Admit(s, 3))
  {
    hide QueueSize;
  }

  lemma EndsAgain(s: State)
    requires HerderEnded(s)
    ensures Get(FinishHerder(s, 1, false).count, "a", 0) == -1
    ensures FinishHerder(s, 1, false).again == [1] && 1 !in FinishHerder(s, 1, false).live
  {
    FinishHerderAgain(s, 1, false);
    hide Judge, Herded, Credited, Sheep, StatusOf;
  }

  ghost predicate HerderWaiting(s: State) {
    && s.cfg == FARM && s.enabled == {"a", "s"} && s.next == 3
    && s.live == {1, 2} && s.store.Keys == {1, 2} && Get(s.awaited, 1, {}) == {2} && Get(s.herds, 1, {}) == {2}
    && s.store[1].herd == 1 && s.store[1].task == "a" && StatusOf(s.store[1]) == Waiting
    && s.store[2].herd == 1 && s.store[2].task == "s" && StatusOf(s.store[2]) == Queued && s.store[2].criterion == ""
    && s.count == map["a" := 1] && s.again == [] && 1 in s.awaited
  }

  lemma NewcomerArrives(s: State)
    requires HerderWaiting(s) && s.script == []
    ensures var u := Insert(s, Asked("s", true), 0, 1);
            NewcomerArrived(u) && u.script == [] && Plan(s, Asked("s", true), 0, 1) == Enqueue(u, 3)
  {
    var u := Insert(s, Asked("s", true), 0, 1);
    assert u.store[3] == NewInst(3, Asked("s", true), 0, false, 1);
    assert u.store[1] == s.store[1] && u.store[2] == s.store[2];
    PlanCases(s, Asked("s", true), 0, 1);
    TriggerCases(u, 3);
    hide Plan, Trigger, Enqueue, Insert;
  }

  lemma FinishActionsEndIt(s: State)
    requires HerderWaiting(s) && s.script == [[Asked("s", true)]]
    ensures HerderEnded(Trigger(s, 1))
  {
    var w := s.(script := []);
    var u := Insert(w, Asked("s", true), 0, 1);
    assert s.script[1..] == [] && [Asked("s", true)][1..] == [] && HerderWaiting(w);
    assert HerdFor(w, Asked("s", true), 1) == 0;
    hide *;
    TriggerCases(s, 1);
    PlanAllCases(w, [Asked("s", true)], 1);
    NewcomerArrives(w);
    NewcomerTakesOver(u);
    LastSheepGoes(u);
    EndedStays(Cancel(u, 2));
    PlanAllCases(Admit(Cancel(u, 2), 3), [], 1);
  }

  lemma FarmStops(s: State)
    requires SheepIs(s, Queued)
    ensures Enabled(s, StopEvent(1, true, [[Asked("s", true)]]))
    ensures var t := Apply(s, StopEvent(1, true, [[Asked("s", true)]]));
            Get(t.count, "a", 0) == -1 && t.again == [1]
  {
    var w := s.(script := [[Asked("s", true)]]);
    var v := Vacate(w, 1, true);
    assert HerderWaiting(v) && v.script == w.script;
    assert Watch(v, 1) == v && StatusOf(v.store[1]) != Canceled;
    assert Apply(s, StopEvent(1, true, [[Asked("s", true)]])) == Stop(w, 1, true);
    hide *;
    StopCases(w, 1, true);
    WaitingFacts(v);
    StopHerderCases(v, 1, false);
    FinishActionsEndIt(v);
    EndedFacts(Trigger(v, 1));
    EndsAgain(Trigger(v, 1));
  }

  lemma WaitingFacts(s: State)
    requires HerderWaiting(s)
    ensures 1 in s.store && s.store[1].herd == 1
  {
  }

  lemma EndedFacts(s: State)
    requires HerderEnded(s)
    ensures 1 in s.store && Get(s.awaited, 1, {}) == {}
  {
  }

  /** A herder runs, one of its sheep is queued and only one of its task may be; when the herder
      stops, its finish actions plan another one, which takes the place of the sheep. The herder is
      finished by the cancellation of its last sheep, then a second time as it stops: the running
      count of its task is -1. */
  lemma HerderIsFinishedTwice()
    ensures var s := Initial(FARM, {"x"}, map[]);
            var events := [PlanEvent(Asked("a", true), 0, []), StartEvent([]), PlanEvent(Asked("s", false), 1, []),
                           ReevaluateEvent([]), StopEvent(1, true, [[Asked("s", true)]])];
            && Possible(s, events)
            && Get(After(s, events).count, "a", 0) == -1 && After(s, events).again == [1]
  {
    hide *;
    var s := Initial(FARM, {"x"}, map[]);
    var e0, e1, e2 := PlanEvent(Asked("a", true), 0, []), StartEvent([]), PlanEvent(Asked("s", false), 1, []);
    var e3, e4 := ReevaluateEvent([]), StopEvent(1, true, [[Asked("s", true)]]);
    FarmPlansHerder(s);
    var s1 := Apply(s, e0);
    FarmStarts(s1);
    var s2 := Apply(s1, e1);
    FarmPlansSheep(s2);
    var s3 := Apply(s2, e2);
    FarmReevaluates(s3);
    var s4 := Apply(s3, e3);
    FarmStops(s4);
    RunThrough([s, s1, s2, s3, s4, Apply(s4, e4)], [e0, e1, e2, e3, e4]);
  }

  lemma NoMore(s: State)
    ensures Possible(s, []) && After(s, []) == s
  {
  }

  /** A run given by its states. */
  lemma {:induction false} RunThrough(states: seq<State>, events: seq<Event>)
    requires |states| == |events| + 1
    requires forall k :: 0 <= k < |events| ==>
               Enabled(states[k], events[k]) && Apply(states[k], events[k]) == states[k + 1]
    ensures Possible(states[0], events) && After(states[0], events) == states[|events|]
    decreases |events|
  {
    hide Apply, Enabled, Possible, After;
    if events == [] {
      NoMore(states[0]);
    } else {
      RunThrough(states[1..], events[1..]);
      OneStep(states[0], events[0], events[1..]);
      assert [events[0]] + events[1..] == events;
    }
  }

  lemma OneStep(s: State, e: Event, rest: seq<Event>)
    requires Enabled(s, e) && Possible(Apply(s, e), rest)
    ensures Possible(s, [e] + rest) && After(s, [e] + rest) == After(Apply(s, e), rest)
  {
    hide Apply, Enabled;
    assert ([e] + rest)[1..] == rest;
  }
}
