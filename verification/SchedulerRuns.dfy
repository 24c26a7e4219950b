/** The invariants over events, and over whole runs. */
module SchedulerRuns {
  import opened TaskStatus
  import opened Totals
  import opened SchedulerModel
  import opened SchedulerInvariants
  import opened SchedulerHerds
  import opened SchedulerBooks
  import opened SchedulerSteps
  import opened SchedulerActions
  import C = Conditions

  /** What an event keeps of the instances: ids, data that never change, order of statuses, and
      those that left the live map. */
  ghost predicate Progress(s: State, t: State) {
    && OnlyNewIds(s, t)
    && (forall i <- s.store :: i in t.store && Evolves(i, s.store[i], t.store[i]))
    && (forall i <- s.store :: i !in s.live ==> i !in t.live)
  }

  lemma ProgressTrans(s: State, t: State, u: State)
    requires Progress(s, t) && Progress(t, u)
    ensures Progress(s, u)
  {
    hide StatusOf;
    forall i <- s.store ensures i in u.store && Evolves(i, s.store[i], u.store[i]) && (i !in s.live ==> i !in u.live) {
      assert i in t.store;
      EvolvesTrans(i, s.store[i], t.store[i], u.store[i]);
    }
  }

  lemma LaterIsProgress(s: State, t: State, except: set<Id>)
    requires Later(s, t, except)
    ensures Progress(s, t)
  {
    hide Evolves, Guarded, StatusOf;
  }

  lemma ProgressSame(s: State, t: State)
    requires t.store == s.store && t.live <= s.live && s.next <= t.next
    ensures Progress(s, t)
  {
    forall i <- s.store ensures Evolves(i, s.store[i], t.store[i]) {
    }
    hide Evolves, StatusOf;
  }

  lemma ProgressPut(s: State, t: State, i: Id, inst: Inst)
    requires i in s.store && t.store == s.store[i := inst] && t.live <= s.live && s.next <= t.next
    requires Evolves(i, s.store[i], inst)
    ensures Progress(s, t)
  {
    forall j <- s.store ensures Evolves(j, s.store[j], t.store[j]) {
    }
    hide Evolves, StatusOf;
  }

  // ---------------------------------------------------------------------------------------------
  // What an event that is not a reload keeps besides
  // ---------------------------------------------------------------------------------------------

  /** The configuration and the number of permanent executors. */
  ghost predicate Follows(s: State, t: State) {
    Progress(s, t) && t.cfg == s.cfg && Permanent(t) == Permanent(s)
  }

  lemma FollowsTrans(s: State, t: State, u: State)
    requires Follows(s, t) && Follows(t, u)
    ensures Follows(s, u)
  {
    hide Progress, Permanent;
    ProgressTrans(s, t, u);
  }

  lemma LaterIsFollows(s: State, t: State, except: set<Id>)
    requires Later(s, t, except)
    ensures Follows(s, t)
  {
    hide Evolves, Guarded, StatusOf;
  }

  lemma FollowsSame(s: State, t: State)
    requires SameBooks(s, t) && t.live <= s.live && s.next <= t.next
    ensures Follows(s, t)
  {
    hide Progress;
    ProgressSame(s, t);
  }

  lemma FollowsItself(s: State)
    ensures Follows(s, s)
  {
    assert SameBooks(s, s);
    hide *;
    FollowsSame(s, s);
  }

  lemma FollowsPut(s: State, t: State, i: Id, inst: Inst)
    requires i in s.store && t.store == s.store[i := inst] && t.live <= s.live && s.next <= t.next
    requires Evolves(i, s.store[i], inst) && t.cfg == s.cfg && Permanent(t) == Permanent(s)
    ensures Follows(s, t)
  {
    hide Progress, Permanent, Evolves;
    ProgressPut(s, t, i, inst);
  }

  // ---------------------------------------------------------------------------------------------
  // An executor stops
  // ---------------------------------------------------------------------------------------------

  lemma SheepHasStartedHerder(s: State, i: Id, limbo: set<Id>, steady: bool)
    requires Herds(s, limbo, steady) && i in s.store && s.store[i].herd != i
    requires StatusOf(s.store[i]) == Queued || StatusOf(s.store[i]) == Running || StatusOf(s.store[i]) == Waiting
    ensures s.store[i].herd in s.store && !Unready(s.store, s.store[i].herd)
  {
    InstFacts(s, i, limbo, steady);
    hide StatusOf, Indexed, Clean, Judged, Coherent;
  }

  /** Members of a herd do not depend on whether their herder is in limbo. */
  lemma HerderInLimbo(s: State, t: State, h: Id, inst: Inst, steady: bool)
    requires Herds(s, {}, steady) && Rewritten(s, t, h, inst)
    requires IsHerder(s.store, h) && SameHerd(inst, s.store[h]) && Coherent(inst)
    requires !Done(s.store, h) && !Unready(s.store, h)
    requires StatusOf(inst) == Waiting
    ensures Herds(t, {h}, steady)
  {
    RewriteShape(s, t, h, inst);
    RewriteIndexed(s, t, h, inst, {});
    HerderEntersLimbo(s, t, h, inst);
    if steady {
      RewriteJudged(s, t, h, inst);
    }
    IndexedInLimbo(t, h);
    hide *;
    HerdsOf(t, {h}, steady);
  }

  lemma HerdsOf(s: State, limbo: set<Id>, steady: bool)
    requires Shape(s) && Clean(s, limbo) && Indexed(s, limbo) && Herding(s, limbo) && (steady ==> Judged(s))
    ensures Herds(s, limbo, steady)
  {
  }

  lemma HerderEntersLimbo(s: State, t: State, h: Id, inst: Inst)
    requires Clean(s, {}) && Herding(s, {}) && Rewritten(s, t, h, inst)
    requires IsHerder(s.store, h) && SameHerd(inst, s.store[h])
    requires !Done(s.store, h) && !Unready(s.store, h) && StatusOf(inst) == Waiting
    ensures Clean(t, {h}) && Herding(t, {h}) && IsHerder(t.store, h)
  {
    hide StatusOf;
  }

  lemma IndexedInLimbo(s: State, h: Id)
    requires Indexed(s, {}) && IsHerder(s.store, h)
    ensures Indexed(s, {h})
  {
    forall k <- s.live | IsHerder(s.store, k) ensures HerdIndexed(s, {h}, k) {
      assert HerdIndexed(s, {}, k);
      hide StatusOf;
      assert Pending(s.store, k, {h}) == Pending(s.store, k, {});
    }
    hide HerdIndexed;
  }

  lemma BusyIsRunning(s: State, i: Id, steady: bool)
    requires Inv(s, {}, steady) && i in s.busy
    ensures i in s.store && StatusOf(s.store[i]) == Running && !Done(s.store, i) && !Unready(s.store, i)
    ensures Coherent(s.store[i]) && Staffed(s) && IsHerder(s.store, s.store[i].herd) && i in s.live
  {
    assert Staffed(s) && i in s.store && StatusOf(s.store[i]) == Running;
    InstFacts(s, i, {}, steady);
    hide Herds, Books, Shape, Staffed, Coherent;
  }

  lemma VacateRewrites(s: State, i: Id, ok: bool, inst: Inst)
    requires i in s.busy && i in s.store && inst == s.store[i].(stopped := true, success := ok, reported := ok)
    requires StatusOf(s.store[i]) == Running && StatusOf(inst) == Waiting
    ensures Rewritten(s, Vacate(s, i, ok), i, inst) && SameHerd(inst, s.store[i])
    ensures Evolves(i, s.store[i], inst)
  {
    assert s.store[i].started && !s.store[i].stopped;
    hide StatusOf;
  }

  /** A permanent executor at work is idle again when it stops; a temporary one is gone. */
  lemma VacateCrew(s: State, i: Id, ok: bool)
    requires i in s.busy
    ensures Permanent(Vacate(s, i, ok)) == Permanent(s) && Vacate(s, i, ok).cfg == s.cfg
  {
    var t := Vacate(s, i, ok);
    var before, after := AtWork(s), AtWork(t);
    assert after == before - {i};
  }

  lemma VacateInv(s: State, i: Id, ok: bool, steady: bool)
    requires Inv(s, {}, steady) && i in s.busy
    ensures var t := Vacate(s, i, ok);
            && i in t.store && StatusOf(t.store[i]) == Waiting && Follows(s, t)
            && (t.store[i].herd == i ==> Inv(t, {i}, steady) && Stoppable(t, i, {i}))
            && (t.store[i].herd != i ==> Inv(t, {}, steady))
  {
    var t := Vacate(s, i, ok);
    var inst := s.store[i].(stopped := true, success := ok, reported := ok);
    BusyIsRunning(s, i, steady);
    InvShape(s, {}, steady);
    VacateEffect(s, i, ok);
    VacateRewrites(s, i, ok, inst);
    VacateBooks(s, i, ok, steady);
    hide *;
    RewrittenIs(s, t, i, inst);
    VacateCrew(s, i, ok);
    FollowsPut(s, t, i, inst);
    if inst.herd == i {
      HerderOf(s.store, i);
      HerderOf(t.store, i);
      HerderInLimbo(s, t, i, inst, steady);
      InvOf(t, {i}, steady);
      WaitingIsStoppable(t, i);
    } else {
      WaitingIsNotFinished(inst);
      SheepHasStartedHerder(s, i, {}, steady);
      RewriteKeeps(s, t, i, inst, {}, steady);
      InvOf(t, {}, steady);
    }
  }

  lemma RewrittenIs(s: State, t: State, i: Id, inst: Inst)
    requires Rewritten(s, t, i, inst)
    ensures t.store == s.store[i := inst] && t.live == s.live && t.next == s.next
  {
  }

  lemma WaitingIsStoppable(s: State, h: Id)
    requires IsHerder(s.store, h) && StatusOf(s.store[h]) == Waiting
    ensures Stoppable(s, h, {h})
  {
  }

  lemma WaitingIsNotFinished(inst: Inst)
    requires StatusOf(inst) == Waiting
    ensures !Finished(StatusOf(inst))
  {
  }

  lemma StaysInLimbo(s: State, t: State, i: Id, limbo: set<Id>, except: set<Id>)
    requires InLimbo(s, i, limbo) && Later(s, t, except)
    ensures InLimbo(t, i, limbo)
  {
    assert Evolves(i, s.store[i], t.store[i]);
    hide Guarded, StatusOf;
  }

  lemma StopSheepKeeps(s: State, i: Id, steady: bool)
    requires Inv(s, {}, steady) && i in s.store && s.store[i].herd != i && StatusOf(s.store[i]) == Waiting
    ensures Inv(StopSheep(s, i), {}, steady) && Later(s, StopSheep(s, i), {i})
  {
    var t := Close(s, i, false);
    var u := Trigger(t, i);
    hide Inv, Later, Close, Trigger, Release, Forget, StatusOf, Unready, InLimbo;
    InvShape(s, {}, steady);
    SheepHasStartedHerder(s, i, {}, steady);
    CloseSheepInv(s, i, false, {}, steady);
    assert {} + {i} == {i} && {i} - {i} == {};
    StillThere(s, t, {i}, i);
    TriggerKeeps(t, i, {i}, steady);
    StaysInLimbo(t, u, i, {i}, {});
    ReleaseInv(u, i, {i}, steady);
    InvShape(t, {i}, steady);
    LaterThen(s, t, u, {i});
    LaterThen(s, u, StopSheep(s, i), {i});
  }

  lemma StopCases(s: State, i: Id, ok: bool)
    requires i in s.busy
    ensures var t := Vacate(s, i, ok);
            i in t.store ==>
              Stop(s, i, ok) == if t.store[i].herd == i then StopHerder(t, i, false) else StopSheep(t, i)
  {
    hide Vacate, StopHerder, StopSheep;
  }

  lemma StopKeeps(s: State, i: Id, ok: bool, steady: bool)
    requires Inv(s, {}, steady) && i in s.busy
    ensures Inv(Stop(s, i, ok), {}, steady) && Follows(s, Stop(s, i, ok))
  {
    hide *;
    var t := Vacate(s, i, ok);
    VacateInv(s, i, ok, steady);
    StopCases(s, i, ok);
    if t.store[i].herd == i {
      StopHerderKeeps(t, i, false, {i}, steady);
      assert {i} - {i} == {};
    } else {
      StopSheepKeeps(t, i, steady);
    }
    LaterIsFollows(t, Stop(s, i, ok), {i});
    FollowsTrans(s, t, Stop(s, i, ok));
  }

  // ---------------------------------------------------------------------------------------------
  // Starting
  // ---------------------------------------------------------------------------------------------

  lemma LaunchRewrites(s: State, i: Id, h: HostId)
    requires i in s.store && StatusOf(s.store[i]) == Queued && Coherent(s.store[i])
    ensures var inst := s.store[i].(target := h, started := true);
            && Rewritten(s, Launch(s, i, h), i, inst) && SameHerd(inst, s.store[i])
            && StatusOf(inst) == Running && Coherent(inst) && Evolves(i, s.store[i], inst)
  {
    hide Charged, ResourcesOf;
  }

  /** An idle executor goes to work; a temporary one is made when there is none. */
  lemma LaunchCrew(s: State, i: Id, h: HostId)
    requires Staffed(s) && i in s.store && StatusOf(s.store[i]) == Queued
    ensures Permanent(Launch(s, i, h)) == Permanent(s)
  {
    LaunchEffect(s, i, h);
    var e := if s.idle == [] then Executor(s.made, true) else s.idle[0];
    MannedCrew(s, Launch(s, i, h), i, s.store[i].(target := h, started := true), e);
  }

  lemma MannedCrew(s: State, t: State, i: Id, inst: Inst, e: Executor)
    requires Staffed(s) && Manned(s, t, i, inst, e) && i in s.store && StatusOf(s.store[i]) == Queued
    ensures Permanent(t) == Permanent(s)
  {
    assert i !in s.busy && (s.idle != [] ==> !s.idle[0].temporary);
    hide StatusOf, Staffed;
    ManOne(s, t, i, e);
  }

  lemma ManOne(s: State, t: State, i: Id, e: Executor)
    requires i !in s.busy && t.busy == s.busy[i := e]
    ensures AtWork(t) == if e.temporary then AtWork(s) else AtWork(s) + {i}
    ensures i !in AtWork(s)
  {
  }

  lemma LaunchInv(s: State, i: Id, h: HostId, steady: bool)
    requires Inv(s, {}, steady) && MayLaunch(s, i, h)
    ensures Inv(Launch(s, i, h), {}, steady) && Follows(s, Launch(s, i, h)) && i in Launch(s, i, h).store
  {
    var t := Launch(s, i, h);
    var inst := s.store[i].(target := h, started := true);
    InvShape(s, {}, steady);
    QueuedFacts(s, i, {}, steady);
    LaunchRewrites(s, i, h);
    LaunchBooks(s, i, h, steady);
    assert Staffed(s) && MayLaunch(s, i, h) && s.store[i].task in s.cfg.tasks;
    hide *;
    RewrittenIs(s, t, i, inst);
    if s.store[i].herd != i {
      SheepHasStartedHerder(s, i, {}, steady);
    }
    RunningIsNotFinished(inst);
    LaunchCrew(s, i, h);
    LaunchConfig(s, i, h);
    RewriteKeeps(s, t, i, inst, {}, steady);
    FollowsPut(s, t, i, inst);
    InvOf(t, {}, steady);
  }

  lemma RunningIsNotFinished(inst: Inst)
    requires StatusOf(inst) == Running
    ensures !Finished(StatusOf(inst))
  {
  }

  lemma QueuedFacts(s: State, i: Id, limbo: set<Id>, steady: bool)
    requires Herds(s, limbo, steady) && i in s.store && StatusOf(s.store[i]) == Queued
    ensures Coherent(s.store[i]) && !Done(s.store, i) && Unready(s.store, i) && i !in limbo
    ensures s.store[i].herd == i ==> IsHerder(s.store, i)
  {
    InstFacts(s, i, limbo, steady);
    hide Herds, Shape;
  }

  /** What the start of an instance comes to. */
  lemma StartCases(s: State, i: Id)
    requires i in s.store && StatusOf(s.store[i]) == Queued
    ensures var t := Start(s, i);
            || t == s
            || (s.store[i].herd == i && t == StopHerder(s, i, true))
            || (s.store[i].herd != i && t == DropSheep(s, i, true))
            || exists h :: MayLaunch(s, i, h) && t == Trigger(Launch(s, i, h), i)
  {
    hide StopHerder, DropSheep, Launch, Trigger, StatusOf, Candidates, Fits;
  }

  lemma StartKeeps(s: State, i: Id, steady: bool)
    requires Inv(s, {}, steady) && i in s.store && StatusOf(s.store[i]) == Queued
    ensures Inv(Start(s, i), {}, steady) && Follows(s, Start(s, i))
  {
    hide *;
    StartCases(s, i);
    InvShape(s, {}, steady);
    QueuedFacts(s, i, {}, steady);
    var t := Start(s, i);
    if t == s {
      FollowsItself(s);
    } else if s.store[i].herd == i && t == StopHerder(s, i, true) {
      QueuedIsStoppable(s, i);
      StopHerderKeeps(s, i, true, {}, steady);
      LaterIsFollows(s, t, {i});
      assert {} - {i} == {};
    } else if s.store[i].herd != i && t == DropSheep(s, i, true) {
      SheepHasStartedHerder(s, i, {}, steady);
      DropSheepInv(s, i, true, {}, steady);
      LaterIsFollows(s, t, {i});
    } else {
      var h :| MayLaunch(s, i, h) && t == Trigger(Launch(s, i, h), i);
      LaunchInv(s, i, h, steady);
      TriggerKeeps(Launch(s, i, h), i, {}, steady);
      LaterIsFollows(Launch(s, i, h), t, {});
      FollowsTrans(s, Launch(s, i, h), t);
    }
  }

  lemma QueuedIsStoppable(s: State, h: Id)
    requires IsHerder(s.store, h) && StatusOf(s.store[h]) == Queued
    ensures Stoppable(s, h, {})
  {
  }

  lemma {:induction false} StartAllKeeps(s: State, ids: seq<Id>, steady: bool)
    requires Inv(s, {}, steady)
    ensures Inv(StartAll(s, ids), {}, steady) && Follows(s, StartAll(s, ids))
    decreases |ids|
  {
    if ids == [] {
      FollowsItself(s);
    } else {
      var t := if ids[0] in s.store && StatusAt(s, ids[0]) == Queued then Start(s, ids[0]) else s;
      assert StartAll(s, ids) == StartAll(t, ids[1..]);
      hide Inv, Follows, Start, StatusOf, StartAll;
      if ids[0] in s.store && StatusAt(s, ids[0]) == Queued {
        StartKeeps(s, ids[0], steady);
      } else {
        FollowsItself(s);
      }
      StartAllKeeps(t, ids[1..], steady);
      FollowsTrans(s, t, StartAll(t, ids[1..]));
    }
  }

  // ---------------------------------------------------------------------------------------------
  // Reevaluating
  // ---------------------------------------------------------------------------------------------

  lemma ReevaluateCases(s: State, i: Id)
    requires Shape(s) && i in s.store
    ensures var t := Reevaluate(s, i);
            || t == s
            || (Guarded(s, i) && t == Enqueue(s, i))
            || t == Cancel(s, i)
  {
    hide Enqueue, Cancel, StatusOf, Herded, Coherent;
  }

  lemma ReevaluateKeeps(s: State, i: Id, steady: bool)
    requires Inv(s, {}, steady) && i in s.store
    ensures Inv(Reevaluate(s, i), {}, steady) && Follows(s, Reevaluate(s, i))
  {
    hide *;
    InvShape(s, {}, steady);
    ReevaluateCases(s, i);
    var t := Reevaluate(s, i);
    if t == s {
      FollowsItself(s);
    } else if t == Cancel(s, i) {
      CancelKeeps(s, i, {}, steady);
      LaterIsFollows(s, t, {i});
    } else {
      EnqueueKeeps(s, i, {}, steady);
      LaterIsFollows(s, t, {i});
    }
  }

  lemma {:induction false} ReevaluateAllKeeps(s: State, ids: seq<Id>, dirty: set<Id>, steady: bool)
    requires Inv(s, {}, steady)
    ensures Inv(ReevaluateAll(s, ids, dirty), {}, steady) && Follows(s, ReevaluateAll(s, ids, dirty))
    decreases |ids|
  {
    if ids == [] {
      FollowsItself(s);
    } else {
      var t := if ids[0] in s.store && Data(s, ids[0]).herd in dirty then Reevaluate(s, ids[0]) else s;
      assert ReevaluateAll(s, ids, dirty) == ReevaluateAll(t, ids[1..], dirty);
      hide Inv, Follows, Reevaluate, ReevaluateAll;
      if ids[0] in s.store && Data(s, ids[0]).herd in dirty {
        ReevaluateKeeps(s, ids[0], steady);
      } else {
        FollowsItself(s);
      }
      ReevaluateAllKeeps(t, ids[1..], dirty, steady);
      FollowsTrans(s, t, ReevaluateAll(t, ids[1..], dirty));
    }
  }

  // ---------------------------------------------------------------------------------------------
  // Reloading
  // ---------------------------------------------------------------------------------------------

  /** A reload that takes nothing away from the tasks that have instances: it neither removes nor
      restores them, keeps their resources and herding policies, and lowers no limit. */
  ghost predicate Milder(s: State, cfg: Config) {
    && (forall i <- s.store ::
          var t := s.store[i].task;
          && ResourcesOf(cfg, t) == ResourcesOf(s.cfg, t)
          && PolicyOf(s.(cfg := cfg), t) == PolicyOf(s, t)
          && (t in cfg.tasks ==> t in s.cfg.tasks))
    && (forall t <- cfg.tasks :: t in s.cfg.tasks ==>
          && s.cfg.tasks[t].maxInstances <= cfg.tasks[t].maxInstances
          && (0 < cfg.tasks[t].maxQueued ==> 0 < s.cfg.tasks[t].maxQueued <= cfg.tasks[t].maxQueued))
    && (forall h, k :: Capacity(s.cfg, h, k) <= Capacity(cfg, h, k))
    && s.cfg.maxQueued <= cfg.maxQueued
  }

  lemma ResizeEffect(s: State, max: nat)
    ensures Resize(s, max) == s.(idle := Resize(s, max).idle, made := Resize(s, max).made)
  {
    hide NewExecutors;
    var toAdd := max - s.cfg.maxTotal;
    if toAdd < 0 {
      var toRemove := if -toAdd > |s.idle| then |s.idle| else -toAdd;
      var idle := s.idle[toRemove..];
      assert Resize(s, max) == s.(idle := idle);
      hide Resize;
    } else {
      var idle := s.idle + NewExecutors(s.made, toAdd);
      assert Resize(s, max) == s.(idle := idle, made := s.made + toAdd);
      hide Resize;
    }
  }

  lemma ActivateEffect(s: State, cfg: Config)
    ensures var t := Activate(s, cfg);
            && t == s.(cfg := cfg, count := t.count, enabled := t.enabled, idle := t.idle, made := t.made)
            && (forall task <- cfg.tasks ::
                  Get(t.count, task, 0) == if task in s.cfg.tasks then Get(s.count, task, 0) else 0)
            && t.idle == Resize(s, cfg.maxTotal).idle && t.made == Resize(s, cfg.maxTotal).made
  {
    hide Resize;
    ResizeEffect(s, cfg.maxTotal);
  }

  lemma ResizeStaffed(s: State, t: State, max: nat)
    requires Staffed(s) && t.store == s.store && t.busy == s.busy
    requires t.idle == Resize(s, max).idle && t.made == Resize(s, max).made
    ensures Staffed(t)
  {
    var toAdd := max - s.cfg.maxTotal;
    if toAdd < 0 {
      var toRemove := if -toAdd > |s.idle| then |s.idle| else -toAdd;
      assert t.idle == s.idle[toRemove..] && t.made == s.made;
      hide Resize, Staffed;
      FewerExecutors(s, t, toRemove);
    } else {
      assert t.idle == s.idle + NewExecutors(s.made, toAdd) && t.made == s.made + toAdd;
      hide Resize, Staffed;
      MoreExecutors(s, t, toAdd);
    }
  }

  lemma FewerExecutors(s: State, t: State, n: nat)
    requires Staffed(s) && t.store == s.store && t.busy == s.busy && n <= |s.idle|
    requires t.idle == s.idle[n..] && t.made == s.made
    ensures Staffed(t)
  {
    hide StatusOf;
    assert forall k :: 0 <= k < |t.idle| ==> t.idle[k] == s.idle[k + n];
  }

  lemma MoreExecutors(s: State, t: State, n: nat)
    requires Staffed(s) && t.store == s.store && t.busy == s.busy
    requires t.idle == s.idle + NewExecutors(s.made, n) && t.made == s.made + n
    ensures Staffed(t)
  {
    hide StatusOf, NewExecutors;
    assert forall k :: 0 <= k < |t.idle| ==>
        t.idle[k] == if k < |s.idle| then s.idle[k] else Executor(s.made + k - |s.idle|, false);
  }

  lemma TallySame(store: Store, p: Status -> bool, f: Key -> int, g: Key -> int)
    requires forall i <- store :: f(KeyOf(store[i])) == g(KeyOf(store[i]))
    ensures Tally(store, p, f) == Tally(store, p, g)
  {
    TotalSame(store.Keys,
              (i: nat) => if i in store then Part(store[i], p, f) else 0,
              (i: nat) => if i in store then Part(store[i], p, g) else 0);
  }

  lemma TwiceSame(store: Store, again: seq<Id>, f: Key -> int, g: Key -> int)
    requires forall i <- store :: f(KeyOf(store[i])) == g(KeyOf(store[i]))
    ensures Twice(store, again, f) == Twice(store, again, g)
  {
    if again != [] {
      TwiceSame(store, again[..|again|-1], f, g);
    }
  }

  function Nothing(): Key -> int {
    (k: Key) => 0
  }

  lemma NothingWeighs(store: Store, again: seq<Id>, p: Status -> bool)
    ensures Tally(store, p, Nothing()) == 0 && Twice(store, again, Nothing()) == 0
  {
    TotalCounts(store.Keys, (i: nat) => if i in store then Part(store[i], p, Nothing()) else 0, {});
    TwiceNothing(store, again);
  }

  lemma TwiceNothing(store: Store, again: seq<Id>)
    ensures Twice(store, again, Nothing()) == 0
  {
    if again != [] {
      TwiceNothing(store, again[..|again|-1]);
    }
  }

  lemma ActivateSlotted(s: State, t: State)
    requires Slotted(s) && Milder(s, t.cfg) && t.store == s.store && t.again == s.again
    requires forall task <- t.cfg.tasks ::
               Get(t.count, task, 0) == if task in s.cfg.tasks then Get(s.count, task, 0) else 0
    ensures Slotted(t)
  {
    hide Tally, Twice, StatusOf, ResourcesOf, PolicyOf, Capacity;
    forall task <- t.cfg.tasks
      ensures Get(t.count, task, 0) + Twice(t.store, t.again, OfTask(task)) == Tally(t.store, Active, OfTask(task))
    {
      if task !in s.cfg.tasks {
        assert forall i <- s.store :: s.store[i].task != task;
        TallySame(s.store, Active, OfTask(task), Nothing());
        TwiceSame(s.store, s.again, OfTask(task), Nothing());
        NothingWeighs(s.store, s.again, Active);
      }
    }
  }

  lemma ActivateLoaded(s: State, t: State)
    requires Loaded(s) && Milder(s, t.cfg) && t.store == s.store && t.again == s.again && t.used == s.used
    ensures Loaded(t)
  {
    hide Tally, Twice, StatusOf, PolicyOf, Capacity, Used;
    forall h, k | h != "" || NoForce(t) ensures Balanced(t, h, k) {
      assert Balanced(s, h, k);
      TallySame(s.store, Active, OnHost(s.cfg, h, k), OnHost(t.cfg, h, k));
      TallySame(s.store, Every, Uncharged(s.cfg, h, k), Uncharged(t.cfg, h, k));
      TwiceSame(s.store, s.again, OnHost(s.cfg, h, k), OnHost(t.cfg, h, k));
    }
  }

  lemma ActivateBounded(s: State, t: State)
    requires Bounded(s) && Milder(s, t.cfg) && t.store == s.store && t.used == s.used
    requires forall task <- t.cfg.tasks ::
               Get(t.count, task, 0) == if task in s.cfg.tasks then Get(s.count, task, 0) else 0
    ensures Bounded(t)
  {
    hide Tally, StatusOf, PolicyOf, Capacity, Used, ResourcesOf;
    if NoForce(t) {
      assert NoForce(s);
      forall h, k ensures Used(t.used, h, k) <= Capacity(t.cfg, h, k) {
        assert Used(s.used, h, k) <= Capacity(s.cfg, h, k) <= Capacity(t.cfg, h, k);
      }
    }
  }

  lemma ActivateHerds(s: State, t: State, steady: bool)
    requires Herds(s, {}, steady) && (steady ==> Milder(s, t.cfg))
    requires t.store == s.store && t.live == s.live && t.herds == s.herds && t.awaited == s.awaited && t.next == s.next
    ensures Herds(t, {}, steady)
  {
    if steady {
      ActivateJudged(s, t);
    }
    SameIndexed(s, t, {});
    hide StatusOf, Coherent, Judged, Milder, Indexed;
  }

  lemma SameIndexed(s: State, t: State, limbo: set<Id>)
    requires Indexed(s, limbo)
    requires t.store == s.store && t.live == s.live && t.herds == s.herds && t.awaited == s.awaited
    ensures Indexed(t, limbo)
  {
    hide Members, Pending;
  }

  lemma ActivateJudged(s: State, t: State)
    requires Judged(s) && Milder(s, t.cfg) && t.store == s.store
    ensures Judged(t)
  {
    hide StatusOf, ResourcesOf, Capacity, Judge, Flock;
    forall h <- t.store ensures PolicyOf(t, t.store[h].task) == PolicyOf(s, s.store[h].task) {
      assert PolicyOf(s.(cfg := t.cfg), s.store[h].task) == PolicyOf(s, s.store[h].task);
    }
  }

  /** How many permanent executors there are above the configured maximum. */
  function Excess(s: State): int {
    Permanent(s) - s.cfg.maxTotal
  }

  /** The executors a reload should remove and cannot, for want of idle ones. */
  function Excused(s: State, max: nat): nat {
    if s.cfg.maxTotal - max > |s.idle| then s.cfg.maxTotal - max - |s.idle| else 0
  }

  lemma ActivateCrew(s: State, t: State, cfg: Config)
    requires t.idle == s.idle && t.busy == s.busy && t.made == s.made && t.cfg == s.cfg
    ensures Excess(Activate(t, cfg)) == Excess(s) + Excused(s, cfg.maxTotal)
  {
    var u := Activate(t, cfg);
    ActivateEffect(t, cfg);
    hide Activate, Resize, AtWork;
    ResizeIdle(t, cfg.maxTotal);
    SameAtWork(s, u);
  }

  lemma SameAtWork(s: State, t: State)
    requires s.busy == t.busy
    ensures AtWork(s) == AtWork(t)
  {
  }

  lemma ResizeIdle(s: State, max: nat)
    ensures |Resize(s, max).idle| == |s.idle| + max - s.cfg.maxTotal + Excused(s, max)
  {
    hide NewExecutors;
    if max >= s.cfg.maxTotal {
      assert Resize(s, max).idle == s.idle + NewExecutors(s.made, max - s.cfg.maxTotal);
    }
  }

  lemma ActivateKeeps(s: State, cfg: Config, steady: bool)
    requires Inv(s, {}, steady) && (steady ==> Milder(s, cfg))
    ensures Inv(Activate(s, cfg), {}, steady) && Progress(s, Activate(s, cfg))
  {
    var t := Activate(s, cfg);
    ActivateEffect(s, cfg);
    InvShape(s, {}, steady);
    hide Activate, Herds, Milder, Resize, StatusOf, Shape, Progress, Staffed, Slotted, Loaded, Bounded;
    ProgressSame(s, t);
    ActivateHerds(s, t, steady);
    ResizeStaffed(s, t, cfg.maxTotal);
    if steady {
      ActivateSlotted(s, t);
      ActivateLoaded(s, t);
      ActivateBounded(s, t);
    }
  }

  lemma OrphansCases(s: State, ids: seq<Id>)
    requires ids != []
    ensures var orphan := Cancelable(s, ids[0]) && Data(s, ids[0]).task !in s.cfg.tasks;
            CancelOrphans(s, ids) == CancelOrphans(if orphan then Cancel(s, ids[0]) else s, ids[1..])
  {
    hide Cancel, Cancelable, Data;
  }

  lemma {:induction false} CancelOrphansKeeps(s: State, ids: seq<Id>, steady: bool)
    requires Inv(s, {}, steady)
    ensures Inv(CancelOrphans(s, ids), {}, steady) && Follows(s, CancelOrphans(s, ids))
    decreases |ids|
  {
    if ids == [] {
      FollowsItself(s);
    } else {
      var orphan := Cancelable(s, ids[0]) && Data(s, ids[0]).task !in s.cfg.tasks;
      var t := if orphan then Cancel(s, ids[0]) else s;
      OrphansCases(s, ids);
      assert orphan ==> ids[0] in s.store;
      hide *;
      if orphan {
        CancelKeeps(s, ids[0], {}, steady);
        LaterIsFollows(s, t, {ids[0]});
      } else {
        FollowsItself(s);
      }
      CancelOrphansKeeps(t, ids[1..], steady);
      FollowsTrans(s, t, CancelOrphans(t, ids[1..]));
    }
  }

  // ---------------------------------------------------------------------------------------------
  // Events
  // ---------------------------------------------------------------------------------------------

  /** In a steady run no reload takes anything away. */
  ghost predicate Mild(s: State, e: Event) {
    e.ReloadEvent? ==> Milder(s, e.cfg)
  }

  /** Fields the invariants do not look at. */
  lemma AsideKeeps(s: State, t: State, steady: bool)
    requires Inv(s, {}, steady) && SameHerds(s, t) && SameBooks(s, t)
    ensures Inv(t, {}, steady) && Follows(s, t)
  {
    assert t.live <= s.live && s.next <= t.next;
    hide *;
    SameInv(s, t, {}, steady);
    FollowsSame(s, t);
  }

  lemma AbortKeeps(s: State, i: Id, steady: bool)
    requires Inv(s, {}, steady)
    ensures Inv(Abort(s, i), {}, steady) && Follows(s, Abort(s, i))
  {
    hide Inv, Follows, CancelHerd, StatusOf, Sheep;
    InvShape(s, {}, steady);
    SheepAreSheep(s, i, {}, steady);
    CancelHerdInv(s, i, {}, steady);
    CancelHerdFollows(s, Ascending(Sheep(s, i), s.next), i, steady);
    FollowsItself(s);
    assert CancelHerd(s, i) == DropSheepOf(s, Ascending(Sheep(s, i), s.next)) by { CancelHerdIs(s, i); }
  }

  lemma CancelHerdIs(s: State, h: Id)
    ensures CancelHerd(s, h) == DropSheepOf(s, Ascending(Sheep(s, h), s.next))
  {
    hide DropSheepOf, Sheep;
  }

  lemma {:induction false} CancelHerdFollows(s: State, ids: seq<Id>, h: Id, steady: bool)
    requires Inv(s, {}, steady) && AreSheep(s, ids, h)
    ensures Follows(s, DropSheepOf(s, ids))
    decreases |ids|
  {
    if ids == [] {
      FollowsItself(s);
    } else {
      assert AreSheep(s, ids[1..], h) && ids[0] in ids;
      var t := if Cancelable(s, ids[0]) then DropSheep(s, ids[0], false) else s;
      assert DropSheepOf(s, ids) == DropSheepOf(t, ids[1..]);
      hide Inv, DropSheep, DropSheepOf, StatusOf, Later, Follows;
      if Cancelable(s, ids[0]) {
        DropSheepInv(s, ids[0], false, {}, steady);
        SheepStay(s, t, ids[1..], h, {ids[0]});
        LaterIsFollows(s, t, {ids[0]});
      } else {
        FollowsItself(s);
      }
      CancelHerdFollows(t, ids[1..], h, steady);
      FollowsTrans(s, t, DropSheepOf(t, ids[1..]));
    }
  }

  /** The actions of an event plan what its script says. */
  lemma Scripted(s: State, script: seq<seq<Request>>, steady: bool)
    requires Inv(s, {}, steady)
    ensures Inv(s.(script := script), {}, steady) && Follows(s, s.(script := script))
  {
    hide *;
    ScriptIsAside(s, script, {}, steady);
    LaterIsFollows(s, s.(script := script), {});
  }

  lemma PlanEventKeeps(s: State, req: Request, herd: Id, script: seq<seq<Request>>, steady: bool)
    requires Inv(s, {}, steady) && (herd == 0 || IsHerder(s.store, herd))
    ensures var t := Plan(s.(script := script), req, herd, 0);
            Inv(t, {}, steady) && Follows(s, t)
  {
    hide *;
    var t := s.(script := script);
    Scripted(s, script, steady);
    assert IsHerder(t.store, herd) == IsHerder(s.store, herd);
    PlanKeeps(t, req, herd, 0, {}, steady);
    LaterIsFollows(t, Plan(t, req, herd, 0), {});
    FollowsTrans(s, t, Plan(t, req, herd, 0));
  }

  lemma ReevaluateEventKeeps(s: State, script: seq<seq<Request>>, steady: bool)
    requires Inv(s, {}, steady)
    ensures var t := ReevaluateAll(s.(script := script, dirty := {}), Ascending(s.live, s.next), s.dirty);
            Inv(t, {}, steady) && Follows(s, t)
  {
    var t := s.(script := script, dirty := {});
    assert SameHerds(s, t) && SameBooks(s, t);
    hide *;
    AsideKeeps(s, t, steady);
    ReevaluateAllKeeps(t, Ascending(s.live, s.next), s.dirty, steady);
    FollowsTrans(s, t, ReevaluateAll(t, Ascending(s.live, s.next), s.dirty));
  }

  lemma StartEventKeeps(s: State, script: seq<seq<Request>>, steady: bool)
    requires Inv(s, {}, steady)
    ensures var t := StartAll(s.(script := script), Ascending(s.live, s.next));
            Inv(t, {}, steady) && Follows(s, t)
  {
    hide *;
    var t := s.(script := script);
    Scripted(s, script, steady);
    StartAllKeeps(t, Ascending(s.live, s.next), steady);
    FollowsTrans(s, t, StartAll(t, Ascending(s.live, s.next)));
  }

  lemma StopEventKeeps(s: State, i: Id, ok: bool, script: seq<seq<Request>>, steady: bool)
    requires Inv(s, {}, steady) && i in s.busy
    ensures var t := Stop(s.(script := script), i, ok);
            Inv(t, {}, steady) && Follows(s, t)
  {
    hide *;
    var t := s.(script := script);
    Scripted(s, script, steady);
    StopKeeps(t, i, ok, steady);
    FollowsTrans(s, t, Stop(t, i, ok));
  }

  lemma AbortEventKeeps(s: State, i: Id, steady: bool)
    requires Inv(s, {}, steady)
    ensures var t := if i in s.live then Abort(s, i) else s;
            Inv(t, {}, steady) && Follows(s, t)
  {
    hide *;
    FollowsItself(s);
    AbortKeeps(s, i, steady);
  }

  lemma SettingEventKeeps(s: State, enabled: set<TaskId>, up: set<HostId>, order: map<string, seq<HostId>>,
                          steady: bool)
    requires Inv(s, {}, steady)
    ensures Inv(s.(enabled := enabled), {}, steady) && Follows(s, s.(enabled := enabled))
    ensures Inv(s.(up := up, order := order), {}, steady) && Follows(s, s.(up := up, order := order))
  {
    hide *;
    SettingIsAside(s, enabled, up, order);
    AsideKeeps(s, s.(enabled := enabled), steady);
    AsideKeeps(s, s.(up := up, order := order), steady);
  }

  lemma SettingIsAside(s: State, enabled: set<TaskId>, up: set<HostId>, order: map<string, seq<HostId>>)
    ensures SameHerds(s, s.(enabled := enabled)) && SameBooks(s, s.(enabled := enabled))
    ensures SameHerds(s, s.(up := up, order := order)) && SameBooks(s, s.(up := up, order := order))
  {
  }

  lemma FollowsIsProgress(s: State, t: State)
    ensures Follows(s, t) ==> Progress(s, t)
  {
    hide Progress, Permanent;
  }

  ghost predicate Continues(s: State, e: Event)
    requires Enabled(s, e)
  {
    if e.ReloadEvent? then Reloaded(s, Apply(s, e), e.cfg.maxTotal) else Follows(s, Apply(s, e))
  }

  ghost predicate Reloaded(s: State, t: State, max: nat) {
    Progress(s, t) && Excess(t) == Excess(s) + Excused(s, max)
  }

  /** One event keeps everything; a reload may be arbitrary unless the run is to stay steady. */
  lemma ApplyKeeps(s: State, e: Event, steady: bool)
    requires Inv(s, {}, steady) && Enabled(s, e) && (steady ==> Mild(s, e))
    ensures Inv(Apply(s, e), {}, steady) && Continues(s, e)
  {
    hide Inv, Progress, Follows, Reloaded, Plan, ReevaluateAll, StartAll, Stop, Cancel, Abort, CancelOrphans, Activate,
         Milder,
         Ascending;
    match e {
      case PlanEvent(req, herd, script) => PlanEventKeeps(s, req, herd, script, steady);
      case ReevaluateEvent(script) => ReevaluateEventKeeps(s, script, steady);
      case StartEvent(script) => StartEventKeeps(s, script, steady);
      case StopEvent(i, ok, script) => StopEventKeeps(s, i, ok, script, steady);
      case CancelEvent(i, script) => CancelEventKeeps(s, i, script, steady);
      case AbortEvent(i) => AbortEventKeeps(s, i, steady);
      case EnableEvent(_, _) => SettingEventKeeps(s, Apply(s, e).enabled, s.up, s.order, steady);
      case HostsEvent(up, order) => SettingEventKeeps(s, s.enabled, up, order, steady);
      case ReloadEvent(cfg, script) => ReloadKeeps(s, cfg, script, steady);
    }
  }

  lemma MilderAside(s: State, script: seq<seq<Request>>, cfg: Config)
    requires Milder(s, cfg)
    ensures Milder(s.(script := script), cfg)
  {
    hide ResourcesOf, Capacity;
    var t := s.(script := script);
    forall i <- t.store
      ensures PolicyOf(t.(cfg := cfg), t.store[i].task) == PolicyOf(t, t.store[i].task)
    {
      assert PolicyOf(s.(cfg := cfg), s.store[i].task) == PolicyOf(s, s.store[i].task);
    }
  }

  lemma CancelEventKeeps(s: State, i: Id, script: seq<seq<Request>>, steady: bool)
    requires Inv(s, {}, steady)
    ensures var t := if i in s.live then Cancel(s.(script := script), i) else s;
            Inv(t, {}, steady) && Follows(s, t)
  {
    hide *;
    FollowsItself(s);
    if i in s.live {
      var t := s.(script := script);
      InvShape(s, {}, steady);
      LiveHerderIsKnown(s, i);
      ScriptIsAside(s, script, {}, steady);
      LaterIsFollows(s, t, {});
      CancelKeeps(t, i, {}, steady);
      LaterIsFollows(t, Cancel(t, i), {i});
      FollowsTrans(s, t, Cancel(t, i));
    }
  }

  lemma IsReloaded(s: State, t: State, max: nat)
    requires Progress(s, t) && Excess(t) == Excess(s) + Excused(s, max)
    ensures Reloaded(s, t, max)
  {
  }

  lemma SameExcess(s: State, t: State)
    requires Follows(s, t)
    ensures Excess(s) == Excess(t)
  {
    hide Progress, Permanent;
  }

  lemma ReloadKeeps(s: State, cfg: Config, script: seq<seq<Request>>, steady: bool)
    requires Inv(s, {}, steady) && (steady ==> Milder(s, cfg))
    ensures var t := CancelOrphans(Activate(s.(script := script), cfg), Ascending(s.live, s.next));
            Inv(t, {}, steady) && Reloaded(s, t, cfg.maxTotal)
  {
    hide *;
    var t := s.(script := script);
    var u := Activate(t, cfg);
    var ids := Ascending(s.live, s.next);
    if steady {
      MilderAside(s, script, cfg);
    }
    ScriptIsAside(s, script, {}, steady);
    LaterIsProgress(s, t, {});
    ActivateKeeps(t, cfg, steady);
    CancelOrphansKeeps(u, ids, steady);
    ProgressTrans(s, t, u);
    FollowsIsProgress(u, CancelOrphans(u, ids));
    ProgressTrans(s, u, CancelOrphans(u, ids));
    ActivateCrew(s, t, cfg);
    SameExcess(u, CancelOrphans(u, ids));
    assert Reloaded(s, CancelOrphans(u, ids), cfg.maxTotal) by { IsReloaded(s, CancelOrphans(u, ids), cfg.maxTotal); }
  }
}
