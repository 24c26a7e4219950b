/** Which queued instance starts, and on which host. */
module SchedulerStart {
  import opened TaskStatus
  import opened SchedulerModel
  import opened SchedulerInvariants
  import opened SchedulerHerds
  import opened SchedulerBooks
  import opened SchedulerSteps
  import opened SchedulerActions
  import opened SchedulerRuns
  import opened SchedulerTheorems
  import opened SchedulerQueue
  import opened SchedulerAgain
  import opened SchedulerTwice

  // ---------------------------------------------------------------------------------------------
  // The first host that suits
  // ---------------------------------------------------------------------------------------------

  /** The hosts a target stands for, in the order they are to be tried, be they up or not. */
  function HostsOf(s: State, target: string): seq<HostId> {
    if target in s.cfg.hosts then [target] else Get(s.order, target, [])
  }

  /** A host suits, and none of those before it. */
  ghost predicate First(s: State, hosts: seq<HostId>, resources: map<Kind, nat>, force: bool, h: HostId) {
    exists k :: 0 <= k < |hosts| && hosts[k] == h && Suits(s, h, resources, force)
             && forall j :: 0 <= j < k ==> !Suits(s, hosts[j], resources, force)
  }

  lemma {:induction false} ChooseAmongAvailable(s: State, hosts: seq<HostId>, resources: map<Kind, nat>, force: bool)
    ensures Choose(s, Available(hosts, s.up), resources, force) == Choose(s, hosts, resources, force)
    decreases |hosts|
  {
    hide Fits;
    if hosts != [] {
      ChooseAmongAvailable(s, hosts[1..], resources, force);
      var rest := Available(hosts[1..], s.up);
      assert ([hosts[0]] + rest)[1..] == rest && [] + rest == rest;
    }
  }

  lemma {:induction false} ChosenIsFirst(s: State, hosts: seq<HostId>, resources: map<Kind, nat>, force: bool)
    ensures var r := Choose(s, hosts, resources, force);
            && (r != [] ==> First(s, hosts, resources, force, r[0]))
            && (r == [] <==> forall h <- hosts :: !Suits(s, h, resources, force))
    decreases |hosts|
  {
    hide Suits;
    if hosts != [] {
      if Suits(s, hosts[0], resources, force) {
        assert hosts[0] == Choose(s, hosts, resources, force)[0];
      } else {
        ChosenIsFirst(s, hosts[1..], resources, force);
        var r := Choose(s, hosts[1..], resources, force);
        if r != [] {
          var k :| 0 <= k < |hosts[1..]| && hosts[1..][k] == r[0] && Suits(s, r[0], resources, force)
                && forall j :: 0 <= j < k ==> !Suits(s, hosts[1..][j], resources, force);
          assert hosts[k+1] == r[0];
          forall j | 0 <= j < k + 1 ensures !Suits(s, hosts[j], resources, force) {
            assert j > 0 ==> hosts[j] == hosts[1..][j-1];
          }
        }
      }
    }
  }

  lemma FirstIsOne(s: State, hosts: seq<HostId>, resources: map<Kind, nat>, force: bool, g: HostId, h: HostId)
    requires First(s, hosts, resources, force, g) && First(s, hosts, resources, force, h)
    ensures g == h
  {
    hide Suits;
  }

  /** The task is known and enabled, and there are a slot and an executor, unless it is forced. */
  ghost predicate MayRun(s: State, i: Id) {
    && i in s.store && s.store[i].task in s.cfg.tasks && s.store[i].task in s.enabled
    && (s.store[i].force
        || (s.idle != [] && Get(s.count, s.store[i].task, 0) < s.cfg.tasks[s.store[i].task].maxInstances))
  }

  /** The first host of its target that suits an instance. */
  ghost predicate FirstFor(s: State, i: Id, h: HostId) {
    i in s.store && s.store[i].task in s.cfg.tasks &&
    var task := s.cfg.tasks[s.store[i].task];
    First(s, HostsOf(s, task.target), task.resources, s.store[i].force, h)
  }

  /** The target is no host, and no host of the cluster is up. */
  ghost predicate NoHost(s: State, i: Id) {
    i in s.store && s.store[i].task in s.cfg.tasks &&
    var target := s.cfg.tasks[s.store[i].task].target;
    target !in s.cfg.hosts && forall h <- HostsOf(s, target) :: h !in s.up
  }

  lemma HostChosen(s: State, i: Id)
    requires i in s.store && s.store[i].task in s.cfg.tasks
    ensures var task := s.cfg.tasks[s.store[i].task];
            var r := Choose(s, Candidates(s, task.target), task.resources, s.store[i].force);
            && (r != [] ==> FirstFor(s, i, r[0]))
            && (r == [] ==> forall h :: !FirstFor(s, i, h))
    ensures Candidates(s, s.cfg.tasks[s.store[i].task].target) == [] <==> NoHost(s, i)
  {
    var task := s.cfg.tasks[s.store[i].task];
    var hosts := HostsOf(s, task.target);
    ChooseAmongAvailable(s, hosts, task.resources, s.store[i].force);
    ChosenIsFirst(s, hosts, task.resources, s.store[i].force);
    if task.target !in s.cfg.hosts {
      SomeAvailable(hosts, s.up);
    }
    hide Choose, Suits, Available;
  }

  lemma SomeAvailable(hosts: seq<HostId>, up: set<HostId>)
    ensures Available(hosts, up) == [] <==> forall h <- hosts :: h !in up
  {
    var r := Available(hosts, up);
    if r != [] {
      assert r[0] in r;
    }
    hide Available;
  }

  /** What starting a queued instance comes to. */
  lemma StartIs(s: State, i: Id)
    requires i in s.store && StatusOf(s.store[i]) == Queued
    ensures !MayRun(s, i) ==> Start(s, i) == s
    ensures MayRun(s, i) && NoHost(s, i) ==>
              Start(s, i) == if s.store[i].herd == i then StopHerder(s, i, true) else DropSheep(s, i, true)
    ensures MayRun(s, i) && !NoHost(s, i) ==>
              || (Start(s, i) == s && forall h :: !FirstFor(s, i, h))
              || (exists h :: FirstFor(s, i, h) && Start(s, i) == Trigger(Launch(s, i, h), i))
  {
    if s.store[i].task in s.cfg.tasks {
      HostChosen(s, i);
    }
    hide StopHerder, DropSheep, Trigger, Launch, Candidates, Choose, FirstFor, NoHost, StatusOf;
  }

  /** A host that is to be tried is in the order of its cluster. */
  lemma FirstMayLaunch(s: State, i: Id, h: HostId)
    requires i in s.store && StatusOf(s.store[i]) == Queued && MayRun(s, i) && FirstFor(s, i, h)
    ensures MayLaunch(s, i, h) && !NoHost(s, i)
  {
    hide StatusOf, Fits;
    var task := s.cfg.tasks[s.store[i].task];
    var hosts := HostsOf(s, task.target);
    var k :| 0 <= k < |hosts| && hosts[k] == h && Suits(s, h, task.resources, s.store[i].force);
    assert hosts[k] in hosts;
  }

  lemma LaunchedRuns(s: State, i: Id, h: HostId, steady: bool)
    requires Inv(s, {}, steady) && MayLaunch(s, i, h)
    ensures var t := Trigger(Launch(s, i, h), i);
            i in t.store && StatusOf(t.store[i]) == Running && t.store[i].target == h
  {
    hide *;
    var u := Launch(s, i, h);
    var t := Trigger(u, i);
    LaunchInv(s, i, h, steady);
    LaunchTargets(s, i, h);
    TriggerKeeps(u, i, {}, steady);
    StillOnHost(u, t, i);
    InvShape(u, {}, steady);
    InvShape(t, {}, steady);
    StillRunning(u, t, i, steady);
  }

  lemma LaunchTargets(s: State, i: Id, h: HostId)
    requires MayLaunch(s, i, h)
    ensures var u := Launch(s, i, h);
            i in u.store && u.store[i].target == h && u.store[i].started && StatusOf(u.store[i]) == Running
  {
    hide Charged, ResourcesOf;
  }

  lemma StillOnHost(s: State, t: State, i: Id)
    requires Later(s, t, {}) && i in s.store && s.store[i].started
    ensures i in t.store && t.store[i].target == s.store[i].target && t.busy == s.busy
  {
    assert Evolves(i, s.store[i], t.store[i]);
    hide StatusOf, Guarded;
  }

  lemma StillRunning(s: State, t: State, i: Id, steady: bool)
    requires Books(s, steady) && Books(t, steady) && t.busy == s.busy && i in s.store && i in t.store
    requires StatusOf(s.store[i]) == Running
    ensures StatusOf(t.store[i]) == Running
  {
    assert Staffed(s) && Staffed(t);
    hide Books, StatusOf;
  }

  /** A queued instance starts exactly when it may run and some host of its target suits it, and then on
      the first one that does; for a cluster, in the order in which its hosts are to be tried. If none is
      up, a sheep fails. Otherwise nothing happens. */
  lemma StartsOnTheFirstHost(s: State, i: Id, steady: bool)
    requires Inv(s, {}, steady) && i in s.store && StatusOf(s.store[i]) == Queued
    ensures var t := Start(s, i);
            && i in t.store
            && (StatusOf(t.store[i]) == Running <==> MayRun(s, i) && exists h :: FirstFor(s, i, h))
            && (StatusOf(t.store[i]) == Running ==> FirstFor(s, i, t.store[i].target))
            && (MayRun(s, i) && NoHost(s, i) && s.store[i].herd != i ==> StatusOf(t.store[i]) == Failure)
            && (!MayRun(s, i) || (!NoHost(s, i) && forall h :: !FirstFor(s, i, h)) ==> t == s)
  {
    hide *;
    StartIs(s, i);
    InvShape(s, {}, steady);
    QueuedFacts(s, i, {}, steady);
    var t := Start(s, i);
    if h :| MayRun(s, i) && !NoHost(s, i) && FirstFor(s, i, h) && t == Trigger(Launch(s, i, h), i) {
      FirstMayLaunch(s, i, h);
      LaunchedRuns(s, i, h, steady);
    } else {
      if h :| MayRun(s, i) && FirstFor(s, i, h) {
        FirstMayLaunch(s, i, h);
      }
      if MayRun(s, i) && NoHost(s, i) {
        NoHostEnds(s, i, steady);
      }
    }
  }

  lemma NoHostEnds(s: State, i: Id, steady: bool)
    requires Inv(s, {}, steady) && i in s.store && StatusOf(s.store[i]) == Queued
    ensures s.store[i].herd == i ==>
              i in StopHerder(s, i, true).store && StatusOf(StopHerder(s, i, true).store[i]) != Running
    ensures s.store[i].herd != i ==>
              i in DropSheep(s, i, true).store && StatusOf(DropSheep(s, i, true).store[i]) == Failure
  {
    hide *;
    InvShape(s, {}, steady);
    QueuedFacts(s, i, {}, steady);
    if s.store[i].herd == i {
      var t := StopHerder(s, i, true);
      QueuedIsStoppable(s, i);
      StopHerderKeeps(s, i, true, {}, steady);
      StillThere(s, t, {i}, i);
      assert {} - {i} == {};
      InvShape(t, {}, steady);
      SameBusy(s, t, {i});
      NotAtWork(s, t, i, steady);
    } else {
      SheepHasStartedHerder(s, i, {}, steady);
      DroppedFails(s, i, steady);
    }
  }

  lemma SameBusy(s: State, t: State, except: set<Id>)
    requires Later(s, t, except)
    ensures t.busy == s.busy
  {
    hide Guarded, Evolves, StatusOf, OnlyNewIds;
  }

  /** A sheep whose target is invalid fails. */
  lemma DroppedFails(s: State, i: Id, steady: bool)
    requires Inv(s, {}, steady) && i in s.store && s.store[i].herd != i && Unready(s.store, i)
    requires s.store[i].herd in s.store && !Unready(s.store, s.store[i].herd)
    ensures i in DropSheep(s, i, true).store && StatusOf(DropSheep(s, i, true).store[i]) == Failure
  {
    hide *;
    var c := Close(s, i, true);
    DropIs(s, i);
    InvShape(s, {}, steady);
    InstFacts(s, i, {}, steady);
    CloseSheepInv(s, i, true, {}, steady);
    assert {} + {i} == {i};
    ClosedFails(s, i);
    ReleaseInv(c, i, {i}, steady);
    FailureStays(c, Release(Forget(c, i), i), i);
  }

  lemma DropIs(s: State, i: Id)
    ensures DropSheep(s, i, true) == Release(Forget(Close(s, i, true), i), i)
  {
    hide Release, Forget, Close;
  }

  lemma ClosedFails(s: State, i: Id)
    requires i in s.store && Coherent(s.store[i]) && !s.store[i].started
    ensures var c := Close(s, i, true);
            i in c.store && StatusOf(c.store[i]) == Failure && c.store[i].herd == s.store[i].herd
  {
    ClosedEffect(s, i, true);
    CloseEffect(s, i, true);
    hide Close, Closed, Coherent, StatusOf;
  }

  lemma FailureStays(s: State, t: State, i: Id)
    requires Later(s, t, {}) && i in s.store && s.store[i].herd != i && StatusOf(s.store[i]) == Failure
    ensures i in t.store && StatusOf(t.store[i]) == Failure
  {
    assert Evolves(i, s.store[i], t.store[i]);
    hide StatusOf, Guarded;
  }

  // ---------------------------------------------------------------------------------------------
  // The lowest id goes first
  // ---------------------------------------------------------------------------------------------

  /** An instance that is queued and would stay so. */
  ghost predicate StaysQueued(s: State, j: Id) {
    !MayRun(s, j) || (!NoHost(s, j) && forall h :: !FirstFor(s, j, h))
  }

  lemma NoExecutor(s: State, j: Id)
    requires s.idle == [] && NoForce(s)
    ensures StaysQueued(s, j)
  {
    hide NoHost, FirstFor;
  }

  lemma StayingIs(s: State, j: Id)
    requires j in s.store && StatusOf(s.store[j]) == Queued && StaysQueued(s, j)
    ensures Start(s, j) == s
  {
    hide Start, MayRun, NoHost, FirstFor, StatusOf;
    StartIs(s, j);
  }

  lemma StatusIs(s: State, j: Id)
    requires j in s.store
    ensures StatusAt(s, j) == StatusOf(s.store[j])
  {
    hide StatusOf;
  }

  lemma {:induction false} NobodyElseStarts(s: State, ids: seq<Id>)
    requires forall j <- ids :: StaysQueued(s, j)
    ensures StartAll(s, ids) == s
    decreases |ids|
  {
    hide *;
    if ids == [] {
      StartNobody(s);
    } else {
      StartAllCases(s, ids);
      assert ids[0] in ids;
      if ids[0] in s.store && StatusAt(s, ids[0]) == Queued {
        StatusIs(s, ids[0]);
        StayingIs(s, ids[0]);
      }
      NobodyElseStarts(s, ids[1..]);
    }
  }

  lemma {:induction false} LowestStarts(s: State, ids: seq<Id>, i: Id)
    requires i in ids && (forall j, k :: 0 <= j < k < |ids| ==> ids[j] < ids[k])
    requires i in s.store && StatusOf(s.store[i]) == Queued
    requires forall j <- ids :: j < i && j in s.store && StatusOf(s.store[j]) == Queued ==> StaysQueued(s, j)
    requires NoForce(Start(s, i)) && Start(s, i).idle == []
    ensures StartAll(s, ids) == Start(s, i)
    decreases |ids|
  {
    hide *;
    StartAllCases(s, ids);
    StatusIs(s, i);
    if ids[0] == i {
      forall j <- ids[1..] ensures StaysQueued(Start(s, i), j) {
        NoExecutor(Start(s, i), j);
      }
      NobodyElseStarts(Start(s, i), ids[1..]);
    } else {
      var k :| 0 <= k < |ids| && ids[k] == i;
      assert ids[0] in ids && ids[0] < i && ids[1..][k-1] == i;
      if ids[0] in s.store && StatusAt(s, ids[0]) == Queued {
        StatusIs(s, ids[0]);
        StayingIs(s, ids[0]);
      }
      LowestStarts(s, ids[1..], i);
    }
  }

  lemma LaunchTakesLast(s: State, i: Id, h: HostId)
    requires |s.idle| == 1 && NoForce(s) && i in s.store && StatusOf(s.store[i]) == Queued
    ensures var t := Launch(s, i, h);
            && t.idle == [] && NoForce(t) && t.script == s.script
            && i in t.store && StatusOf(t.store[i]) == Running && t.store[i].target == h
            && forall j <- s.store :: j in t.store && (j != i ==> t.store[j] == s.store[j])
  {
    hide Charged, ResourcesOf;
  }

  /** When actions ask for nothing, nothing is forced and one executor is idle, it goes to the queued
      instance with the lowest id that can start; all others stay as they are. */
  lemma LowestGetsTheExecutor(s: State, i: Id, h: HostId)
    requires Inv(s, {}, false) && |s.idle| == 1 && NoForce(s)
    requires i in s.live && i in s.store && StatusOf(s.store[i]) == Queued && MayRun(s, i) && FirstFor(s, i, h)
    requires forall j <- s.live | j in s.store && j < i && StatusOf(s.store[j]) == Queued :: StaysQueued(s, j)
    ensures var t := Apply(s, StartEvent([]));
            && i in t.store && StatusOf(t.store[i]) == Running && t.store[i].target == h
            && forall j <- s.store :: j in t.store && (j != i ==> t.store[j] == s.store[j])
  {
    hide *;
    var w := s.(script := []);
    StartEventIs(s, []);
    AsideStart(s, w, i, h);
    InvShape(s, {}, false);
    KnownIsBelow(s, i);
    forall j <- s.live | j in w.store && j < i && StatusOf(w.store[j]) == Queued ensures StaysQueued(w, j) {
      StaysAside(s, w, j);
    }
    LowestOfAll(w, i, h);
    LaunchTakesLast(w, i, h);
  }

  lemma StartEventIs(s: State, script: seq<seq<Request>>)
    ensures Apply(s, StartEvent(script)) == StartAll(s.(script := script), Ascending(s.live, s.next))
    ensures Apply(s, ReevaluateEvent(script))
         == ReevaluateAll(s.(script := script, dirty := {}), Ascending(s.live, s.next), s.dirty)
  {
    hide StartAll, ReevaluateAll, Ascending;
  }

  lemma KnownIsBelow(s: State, i: Id)
    requires Shape(s) && i in s.store
    ensures i < s.next
  {
    hide Coherent, StatusOf;
  }

  lemma AsideStart(s: State, t: State, i: Id, h: HostId)
    requires t == s.(script := t.script) && MayRun(s, i) && FirstFor(s, i, h) && NoForce(s)
    ensures MayRun(t, i) && FirstFor(t, i, h) && NoForce(t)
  {
    SameSuits(s, t);
    hide Suits, HostsOf;
  }

  lemma LiveInOrder(s: State, i: Id)
    requires i in s.live && i < s.next
    ensures var ids := Ascending(s.live, s.next);
            i in ids && (forall j, k :: 0 <= j < k < |ids| ==> ids[j] < ids[k]) && forall j <- ids :: j in s.live
  {
    hide Ascending;
  }

  lemma LowestOfAll(s: State, i: Id, h: HostId)
    requires |s.idle| == 1 && NoForce(s) && s.script == [] && i in s.live && i < s.next
    requires i in s.store && StatusOf(s.store[i]) == Queued && MayRun(s, i) && FirstFor(s, i, h)
    requires forall j <- s.live | j in s.store && j < i && StatusOf(s.store[j]) == Queued :: StaysQueued(s, j)
    ensures StartAll(s, Ascending(s.live, s.next)) == Launch(s, i, h)
  {
    hide *;
    FirstMayLaunch(s, i, h);
    StartIs(s, i);
    var g :| FirstFor(s, i, g) && Start(s, i) == Trigger(Launch(s, i, g), i);
    OneFirst(s, i, g, h);
    LaunchTakesLast(s, i, h);
    TriggerCases(Launch(s, i, h), i);
    LiveInOrder(s, i);
    LowestStarts(s, Ascending(s.live, s.next), i);
  }

  lemma OneFirst(s: State, i: Id, g: HostId, h: HostId)
    requires FirstFor(s, i, g) && FirstFor(s, i, h)
    ensures g == h
  {
    hide First;
    var task := s.cfg.tasks[s.store[i].task];
    FirstIsOne(s, HostsOf(s, task.target), task.resources, s.store[i].force, g, h);
  }

  lemma SameSuits(s: State, t: State)
    requires t == s.(script := t.script)
    ensures forall h, resources, force :: Suits(t, h, resources, force) == Suits(s, h, resources, force)
    ensures forall target :: HostsOf(t, target) == HostsOf(s, target)
  {
  }

  lemma StaysAside(s: State, t: State, j: Id)
    requires StaysQueued(s, j) && t == s.(script := t.script)
    ensures StaysQueued(t, j)
  {
    SameSuits(s, t);
    assert MayRun(t, j) == MayRun(s, j) && NoHost(t, j) == NoHost(s, j);
    forall h ensures FirstFor(t, j, h) == FirstFor(s, j, h) {
    }
    hide Suits, HostsOf;
  }
}
