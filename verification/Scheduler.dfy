/** The scheduler itself: its fields, and its methods with the loops they are made of, each proved
    to take the step that the model defines. */
module Scheduler {
  import opened TaskStatus
  import opened SchedulerModel
  import M = SchedulerModel
  import A = SchedulerActions
  import R = SchedulerRuns
  import Q = SchedulerQueue
  import G = SchedulerAgain
  import C = Conditions

  class Scheduler {
    var cfg: Config
    var enabled: set<TaskId>
    var up: set<HostId>
    var order: map<string, seq<HostId>>
    var instances: map<Id, Inst>
    var next: Id
    var unfinished: set<Id>
    var herds: map<Id, set<Id>>
    var awaited: map<Id, set<Id>>
    var dirty: set<Id>
    var idle: seq<Executor>
    var busy: map<Id, Executor>
    var made: nat
    var count: map<TaskId, int>
    var used: map<HostId, map<Kind, int>>
    var script: seq<seq<Request>>
    ghost var again: seq<Id>
    ghost var strayed: bool

    ghost function St(): State
      reads this
    {
      State(cfg, enabled, up, order, instances, next, unfinished, herds, awaited, dirty, idle, busy, made,
            count, used, script, again, strayed)
    }

    constructor (cfg: Config, up: set<HostId>, order: map<string, seq<HostId>>)
      ensures St() == Initial(cfg, up, order)
    {
      hide NewExecutors;
      this.cfg, this.up, this.order, enabled := cfg, up, order, cfg.tasks.Keys;
      instances, next, unfinished, herds, awaited, dirty := map[], 1, {}, map[], map[], {};
      idle, busy, made := NewExecutors(0, cfg.maxTotal), map[], cfg.maxTotal;
      count, used, script, again, strayed := map[], map[], [], [], false;
    }

    function Look(i: Id): (r: Inst)
      reads this
      ensures r == Data(St(), i)
    {
      Get(instances, i, NULL_INST)
    }

    // -------------------------------------------------------------------------------------------
    // The end of an instance
    // -------------------------------------------------------------------------------------------

    /** The sheep of a herd that are still in the live map. */
    method HerdedTasks(h: Id) returns (sheep: set<Id>)
      ensures sheep == Sheep(St(), h)
    {
      sheep := {};
      var todo := Get(herds, h, {});
      while todo != {}
        invariant todo <= Get(herds, h, {})
        invariant sheep == Sheep(St(), h) - todo
      {
        var i :| i in todo;
        todo := todo - {i};
        if i in unfinished && i in instances {
          sheep := sheep + {i};
        }
      }
    }

    method RecomputeHerderSuccess(h: Id, own: bool) returns (success: bool)
      ensures success == Judge(PolicyOf(St(), Look(h).task), own, Herded(St(), h))
    {
      var sheep := HerdedTasks(h);
      if sheep == {} {
        assert Herded(St(), h) == map[];
        return own;
      }
      ghost var i0 :| i0 in sheep;
      assert i0 in Herded(St(), h);
      var todo := sheep;
      match PolicyOfTask(Look(h).task) {
        case AllSuccess =>
          if !own {
            return false;
          }
          while todo != {}
            invariant todo <= sheep && forall i <- sheep - todo :: StatusOf(Look(i)) == Success
          {
            var i :| i in todo;
            if StatusOf(Look(i)) != Success {
              assert Herded(St(), h)[i] != Success;
              return false;
            }
            todo := todo - {i};
          }
          assert sheep - todo == sheep == Herded(St(), h).Keys;
          return true;
        case NoFailure =>
          if !own {
            return false;
          }
          while todo != {}
            invariant todo <= sheep && forall i <- sheep - todo :: StatusOf(Look(i)) != Failure
          {
            var i :| i in todo;
            if StatusOf(Look(i)) == Failure {
              assert Herded(St(), h)[i] == Failure;
              return false;
            }
            todo := todo - {i};
          }
          assert sheep - todo == sheep == Herded(St(), h).Keys;
          return true;
        case OneSuccess =>
          while todo != {}
            invariant todo <= sheep && forall i <- sheep - todo :: StatusOf(Look(i)) != Success
          {
            var i :| i in todo;
            if StatusOf(Look(i)) == Success {
              assert Herded(St(), h)[i] == Success;
              return true;
            }
            todo := todo - {i};
          }
          assert sheep - todo == sheep == Herded(St(), h).Keys;
          return false;
        case _ =>
          return own;
      }
    }

    function PolicyOfTask(t: TaskId): (r: HerdingPolicy)
      reads this
      ensures r == PolicyOf(St(), t)
    {
      if t in cfg.tasks then cfg.tasks[t].policy else OwnStatus
    }

    method CreditResources(h: HostId, resources: map<Kind, nat>)
      modifies `used
      ensures used == old(used)[h := Credited(Get(old(used), h, map[]), resources)]
    {
      hide PartCredited, Credited, Get;
      var before := Get(used, h, map[]);
      var consumed := before;
      var todo := resources.Keys;
      PartCreditedEnds(before, resources);
      while todo != {}
        invariant todo <= resources.Keys && used == old(used)
        invariant consumed == PartCredited(before, resources, todo)
      {
        var k :| k in todo;
        PartCreditedNext(before, resources, todo, k);
        consumed := consumed[k := Get(consumed, k, 0) - resources[k]];
        todo := todo - {k};
      }
      used := used[h := consumed];
    }

    /** The timestamps, success, slot and resources of an instance that finishes. */
    method Close(i: Id, asFailure: bool)
      modifies `instances, `count, `used, `again
      ensures St() == M.Close(old(St()), i, asFailure)
    {
      hide M.Close, M.GiveBack, Judge, Herded, PolicyOf, Data;
      CloseIs(St(), i, asFailure);
      var inst := Look(i);
      if !inst.started {
        instances := instances[i := inst.(finished := true, success := false, started := asFailure, stopped := true)];
      } else {
        var success := RecomputeHerderSuccess(i, inst.success);
        GiveBack(i);
        instances := instances[i := inst.(finished := true, success := success)];
      }
    }

    method GiveBack(i: Id)
      modifies `count, `used, `again
      ensures St() == M.GiveBack(old(St()), i)
    {
      hide Credited, Get;
      var inst := Look(i);
      if inst.task in cfg.tasks {
        count := count[inst.task := Get(count, inst.task, 0) - 1];
      }
      CreditResources(inst.target, ResourcesOf(cfg, inst.task));
      again := if i in unfinished then again else again + [i];
    }

    /** The finished sheep of a herd leave the live map. */
    method ForgetFinished(h: Id)
      modifies `unfinished
      ensures unfinished == old(unfinished) - FinishedSheep(old(St()), h)
    {
      var todo := Get(herds, h, {});
      while todo != {}
        invariant todo <= Get(herds, h, {})
        invariant unfinished == old(unfinished) - (FinishedSheep(old(St()), h) - todo)
      {
        var j :| j in todo;
        todo := todo - {j};
        if j in unfinished && j in instances && Finished(StatusOf(instances[j])) {
          unfinished := unfinished - {j};
        }
      }
    }

    /** The indexes forget a finished instance. */
    method Forget(i: Id)
      modifies this
      ensures St() == M.Forget(old(St()), i)
    {
      hide M.Forget, Sheep, FinishedSheep, Data;
      ForgetIs(St(), i);
      var h := Look(i).herd;
      if h == i {
        ForgetFinished(i);
        unfinished := unfinished - {i};
        awaited := awaited - {i};
        herds := herds - {i};
      } else if h !in unfinished {
        unfinished := unfinished - {i};
      }
    }

    method FinishHerder(h: Id, asFailure: bool)
      modifies this
      ensures St() == M.FinishHerder(old(St()), h, asFailure)
    {
      hide *;
      FinishHerderIs(St(), h, asFailure);
      Close(h, asFailure);
      Forget(h);
    }

    /** A finished sheep is no longer awaited. */
    method Release(i: Id)
      modifies this
      ensures St() == M.Release(old(St()), i)
    {
      var h := Look(i).herd;
      if h in awaited {
        awaited := awaited[h := awaited[h] - {i}];
        if awaited[h] == {} && StatusOf(Look(h)) == Waiting {
          FinishHerder(h, false);
        } else {
          dirty := dirty + {h};
        }
      }
    }

    method DropSheep(i: Id, asFailure: bool)
      modifies this
      ensures St() == M.DropSheep(old(St()), i, asFailure)
    {
      hide *;
      DropSheepIs(St(), i, asFailure);
      Close(i, asFailure);
      Forget(i);
      Release(i);
    }

    // -------------------------------------------------------------------------------------------
    // Planning, queueing and canceling
    // -------------------------------------------------------------------------------------------

    /** The planned and queued sheep of a herder are canceled. */
    method CancelOrAbortHerdedTasks(h: Id)
      modifies this
      ensures St() == CancelHerd(old(St()), h)
    {
      hide *;
      R.CancelHerdIs(St(), h);
      var sheep := HerdedTasks(h);
      var ids := Ascending(sheep, NextId());
      ghost var s0 := St();
      var k := 0;
      assert ids[0..] == ids;
      while k < |ids|
        invariant k <= |ids| && DropSheepOf(s0, ids) == DropSheepOf(St(), ids[k..])
      {
        DropFirst(St(), ids[k..]);
        assert ids[k..][1..] == ids[k+1..];
        var cancelable := CanCancel(ids[k]);
        if cancelable {
          DropSheep(ids[k], false);
        }
        k := k + 1;
      }
      assert ids[k..] == [];
      DropNobody(St());
    }

    function NextId(): (r: Id)
      reads this
      ensures r == St().next
    {
      next
    }

    method CanCancel(i: Id) returns (r: bool)
      ensures r == Cancelable(St(), i)
    {
      r := i in instances && (StatusOf(instances[i]) == Planned || StatusOf(instances[i]) == Queued);
    }

    method TriggerActions(i: Id)
      modifies this
      ensures St() == Trigger(old(St()), i)
      decreases |script|, 0, 0
    {
      hide Trigger, PlanAll;
      A.TriggerCases(St(), i);
      if script != [] {
        var reqs := script[0];
        script := script[1..];
        PlanRequests(reqs, i);
      }
    }

    /** The plan-task actions, one after the other. */
    method PlanRequests(reqs: seq<Request>, i: Id)
      modifies this
      ensures St() == PlanAll(old(St()), reqs, i)
      decreases |script|, 7
    {
      hide PlanAll, Plan;
      ghost var s0 := St();
      var k := 0;
      assert reqs[0..] == reqs;
      while k < |reqs|
        invariant k <= |reqs| && PlanAll(s0, reqs, i) == PlanAll(St(), reqs[k..], i)
        invariant |script| <= |s0.script|
      {
        A.PlanAllCases(St(), reqs[k..], i);
        assert reqs[k..][1..] == reqs[k+1..];
        DoPlanTask(reqs[k], if reqs[k].lone then 0 else Look(i).herd, i);
        k := k + 1;
      }
      A.PlanAllCases(St(), reqs[k..], i);
    }

    method DoPlanTask(req: Request, herd: Id, parent: Id)
      modifies this
      ensures St() == Plan(old(St()), req, herd, parent)
      decreases |script|, 6
    {
      hide Plan, Trigger, Enqueue, Insert, Enter, NewInst;
      A.PlanCases(St(), req, herd, parent);
      if req.task !in cfg.tasks || req.task !in enabled {
        return;
      }
      var id := next;
      var herded := herd in unfinished && herd in instances;
      InsertInstance(req, herd, parent);
      TriggerActions(id);
      if herded {
        dirty := dirty + {herd};
      } else {
        EnqueueTaskInstance(id);
      }
    }

    /** The instance, with its conditions, and the indexes of its herd. */
    method InsertInstance(req: Request, herd: Id, parent: Id)
      modifies this
      ensures St() == Insert(old(St()), req, herd, parent)
    {
      hide Insert, NewInst, InHerd, Alone;
      InsertIs(St(), req, herd, parent);
      var herded := herd in unfinished && herd in instances;
      var inst := NewInstance(req, herd, herded, parent);
      if herded {
        InsertInHerd(inst, herd);
      } else {
        InsertAlone(inst);
      }
    }

    method InsertAlone(inst: Inst)
      modifies this
      ensures St() == Alone(old(St()), inst)
    {
      instances, unfinished, next := instances[next := inst], unfinished + {next}, next + 1;
    }

    method InsertInHerd(inst: Inst, herd: Id)
      modifies this
      ensures St() == InHerd(old(St()), inst, herd)
    {
      hide Alone, Appended, Data;
      InHerdIs(St(), inst, herd);
      var id, herder := next, Look(herd);
      InsertAlone(inst);
      AppendToHerd(id, herd, herder);
    }

    /** The herd's indexes, and the list the herder keeps of those planned into its herd. */
    method AppendToHerd(id: Id, herd: Id, herder: Inst)
      modifies `instances, `awaited, `herds
      ensures St() == Appended(old(St()), id, herd, herder)
    {
      hide Get;
      awaited, herds, instances :=
        awaited[herd := Get(awaited, herd, {}) + {id}],
        herds[herd := Get(herds, herd, {}) + {id}],
        instances[herd := herder.(herded := herder.herded + {id})];
    }

    /** Conditions are for herds only; those left empty have defaults. */
    method NewInstance(req: Request, herd: Id, herded: bool, parent: Id) returns (inst: Inst)
      ensures inst == NewInst(next, req, herd, herded, parent)
    {
      hide C.Guess;
      var queuewhen, cancelwhen := req.queuewhen, req.cancelwhen;
      if !herded {
        queuewhen, cancelwhen := C.NullCondition, C.NullCondition;
      }
      if C.Empty(queuewhen) && herded {
        queuewhen := C.TaskWait(C.AllStarted, {parent});
      }
      if C.Empty(cancelwhen) {
        cancelwhen := C.Guess(queuewhen, cancelwhen);
      }
      inst := Inst(req.task, req.force, if herd == 0 then next else herd, req.criterion, queuewhen, cancelwhen,
                   false, false, false, false, false, false, "", {});
    }

    /** The queued instances of the same task and criterion, lowest ids first, then the instance. */
    method CollectDuplicates(i: Id) returns (duplicates: seq<Id>)
      ensures duplicates == Duplicates(St(), i)
    {
      hide Rivals;
      duplicates := [];
      var inst := Look(i);
      for j := 0 to next
        invariant duplicates == Ascending(Rivals(St(), i), j)
      {
        IsRival(St(), i, j);
        if j in unfinished && j in instances && Duplicate(instances[j], inst) {
          duplicates := duplicates + [j];
        }
      }
      duplicates := duplicates + [i];
    }

    method QueuedInstances() returns (size: nat)
      ensures size == QueueSize(St())
    {
      size := 0;
      var todo := unfinished;
      assert QueuedAmong(St(), {}) == {};
      while todo != {}
        invariant todo <= unfinished && size == |QueuedAmong(St(), unfinished - todo)|
      {
        var j :| j in todo;
        QueuedOneMore(St(), unfinished - todo, j);
        assert unfinished - todo + {j} == unfinished - (todo - {j});
        todo := todo - {j};
        if j in instances && StatusOf(instances[j]) == Queued {
          size := size + 1;
        }
      }
      assert unfinished - todo == unfinished;
      assert QueuedAmong(St(), unfinished)
          == set j | j in St().live && j in St().store && StatusAt(St(), j) == Queued;
    }

    method EnqueueTaskInstance(i: Id)
      modifies this
      ensures St() == Enqueue(old(St()), i)
      decreases |script|, 5
    {
      hide Enqueue, M.Cancel, CancelAll, Duplicates, Surplus, QueueSize, M.Admit, StatusOf;
      A.EnqueueCases(St(), i);
      var inst := Look(i);
      ghost var s0 := St();
      if !inst.force {
        if inst.task !in enabled {
          DoCancelTaskInstance(i);
          return;
        }
        var max := if inst.task in cfg.tasks then cfg.tasks[inst.task].maxQueued else 0;
        if max > 0 {
          var keepLast := inst.task in cfg.tasks && cfg.tasks[inst.task].keepLast;
          var duplicates := CollectDuplicates(i);
          var selfCanceled := CancelSurplus(duplicates, max, keepLast, i);
          if selfCanceled {
            return;
          }
        }
      }
      Admit(i);
    }

    /** Duplicates are taken from one end, and canceled, while there are too many. */
    method CancelSurplus(all: seq<Id>, max: nat, keepLast: bool, i: Id) returns (selfCanceled: bool)
      modifies this
      ensures St() == CancelAll(old(St()), Surplus(all, max, keepLast))
      ensures selfCanceled <==> i in Surplus(all, max, keepLast)
      decreases |script|, 4
    {
      hide M.Cancel, CancelAll, Surplus;
      ghost var s0 := St();
      var duplicates := all;
      selfCanceled := false;
      while |duplicates| > max
        invariant CancelAll(s0, Surplus(all, max, keepLast)) == CancelAll(St(), Surplus(duplicates, max, keepLast))
        invariant i in Surplus(all, max, keepLast) <==> selfCanceled || i in Surplus(duplicates, max, keepLast)
        invariant |script| <= |s0.script|
      {
        SurplusHead(duplicates, max, keepLast);
        A.CancelAllCases(St(), Surplus(duplicates, max, keepLast));
        var duplicate;
        if keepLast {
          duplicate, duplicates := duplicates[0], duplicates[1..];
        } else {
          duplicate, duplicates := duplicates[|duplicates|-1], duplicates[..|duplicates|-1];
        }
        if duplicate == i {
          selfCanceled := true;
        }
        DoCancelTaskInstance(duplicate);
      }
      NoSurplus(duplicates, max, keepLast);
      A.CancelAllCases(St(), []);
    }

    /** The instance is queued unless too many are. */
    method Admit(i: Id)
      modifies this
      ensures St() == M.Admit(old(St()), i)
    {
      hide QueueSize;
      var size := QueuedInstances();
      if size < cfg.maxQueued {
        instances := instances[i := Look(i).(queued := true)];
        unfinished := unfinished + {i};
      }
    }

    method DoCancelTaskInstance(i: Id)
      modifies this
      ensures St() == M.Cancel(old(St()), i)
      decreases |script|, 3
    {
      hide M.Cancel, M.StopHerder, CancelHerd, M.DropSheep, Cancelable, Data;
      CancelIs(St(), i);
      var cancelable := CanCancel(i);
      if cancelable {
        var herder := IsItsOwnHerder(i);
        if herder {
          CancelOrAbortHerdedTasks(i);
          StopHerder(i, false);
        } else {
          DropSheep(i, false);
        }
      }
    }

    method IsItsOwnHerder(i: Id) returns (r: bool)
      ensures r <==> Data(St(), i).herd == i
    {
      r := Look(i).herd == i;
    }

    ghost method Observe(h: Id)
      modifies `strayed
      ensures St() == Watch(old(St()), h)
    {
      hide Watch;
      WatchIs(St(), h);
      strayed := Watch(St(), h).strayed;
    }

    /** The first part of the finish actions runs; then the herder finishes, or waits. */
    method StopHerder(h: Id, asFailure: bool)
      modifies this
      ensures St() == M.StopHerder(old(St()), h, asFailure)
      decreases |script|, 2
    {
      hide M.StopHerder, Trigger, M.FinishHerder, StatusOf, Watch, Data, PolicyOf, Get;
      StopHerderIs(St(), h, asFailure);
      if StatusOf(Look(h)) != Canceled {
        Observe(h);
        TriggerActions(h);
      }
      if || StatusOf(Look(h)) == Canceled
         || Get(awaited, h, {}) == {}
         || PolicyOfTask(Look(h).task) == NoWait {
        FinishHerder(h, asFailure);
      } else {
        dirty := dirty + {h};
      }
    }

    /** A sheep stopped: it finishes, its actions run, then it is no longer awaited. */
    method StopSheep(i: Id)
      modifies this
      ensures St() == M.StopSheep(old(St()), i)
    {
      hide *;
      Q.StopSheepCases(St(), i);
      Close(i, false);
      TriggerActions(i);
      Forget(i);
      Release(i);
    }

    /** The executor of an instance tells that it has stopped. */
    method TaskInstanceStopped(i: Id, ok: bool)
      requires i in busy
      modifies this
      ensures St() == Stop(old(St()), i, ok)
    {
      StopIs(St(), i, ok);
      Vacate(i, ok);
      hide *;
      var herder := IsItsOwnHerder(i);
      if herder {
        StopHerder(i, false);
      } else {
        StopSheep(i);
      }
    }

    method Vacate(i: Id, ok: bool)
      requires i in busy
      modifies `instances, `idle, `busy
      ensures St() == M.Vacate(old(St()), i, ok)
    {
      hide Data;
      instances := instances[i := Look(i).(stopped := true, success := ok, reported := ok)];
      if !busy[i].temporary {
        idle := idle + [busy[i]];
      }
      busy := busy - {i};
    }

    // -------------------------------------------------------------------------------------------
    // Starting
    // -------------------------------------------------------------------------------------------

    /** The target itself when it is a host, otherwise the available hosts of that cluster. */
    method FindHosts(target: string) returns (hosts: seq<HostId>)
      ensures hosts == Candidates(St(), target)
    {
      if target in cfg.hosts {
        return [target];
      }
      var all := Get(order, target, []);
      hosts := [];
      for k := 0 to |all|
        invariant hosts + Available(all[k..], up) == Available(all, up)
      {
        assert all[k..][1..] == all[k+1..];
        if all[k] in up {
          hosts := hosts + [all[k]];
        }
      }
    }

    /** Whether a host is up and has enough of every resource. Charges are made on a copy, which a
        host that lacks something leaves behind. */
    method TryHost(h: HostId, resources: map<Kind, nat>, force: bool) returns (ok: bool, consumed: map<Kind, int>)
      ensures ok <==> Suits(St(), h, resources, force)
      ensures ok ==> consumed == if force then Get(used, h, map[]) else Charged(Get(used, h, map[]), resources)
    {
      hide PartCharged, Charged;
      var before := Get(used, h, map[]);
      consumed := before;
      if h !in up {
        return false, consumed;
      }
      if force {
        return true, consumed;
      }
      var todo := resources.Keys;
      PartChargedEnds(before, resources);
      while todo != {}
        invariant todo <= resources.Keys && consumed == PartCharged(before, resources, todo)
        invariant forall k <- resources.Keys - todo ::
                    resources[k] <= Get(Get(cfg.hosts, h, map[]), k, 0) - Get(before, k, 0)
      {
        var k :| k in todo;
        PartChargedNext(before, resources, todo, k);
        assert Get(consumed, k, 0) == Get(before, k, 0);
        var stillAvailable := Get(Get(cfg.hosts, h, map[]), k, 0) - Get(consumed, k, 0);
        if stillAvailable < resources[k] {
          return false, consumed;
        }
        consumed := consumed[k := Get(consumed, k, 0) + resources[k]];
        todo := todo - {k};
      }
      assert resources.Keys - todo == resources.Keys;
      return true, consumed;
    }

    method Launch(i: Id, h: HostId, consumed: map<Kind, int>)
      requires ResourcesOf(cfg, Look(i).task) != map[] ==>
                 consumed == if Look(i).force then Get(used, h, map[])
                             else Charged(Get(used, h, map[]), ResourcesOf(cfg, Look(i).task))
      modifies this
      ensures St() == M.Launch(old(St()), i, h)
    {
      hide Charged, Get, ResourcesOf, Data;
      LaunchIs(St(), i, h);
      Charge(i, h, consumed);
      Man(i, h);
    }

    /** The slot and the resources are taken. */
    method Charge(i: Id, h: HostId, consumed: map<Kind, int>)
      modifies `count, `used
      ensures count == old(count)[Look(i).task := Get(old(count), Look(i).task, 0) + 1]
      ensures used == if ResourcesOf(cfg, Look(i).task) == map[] then old(used) else old(used)[h := consumed]
    {
      hide Get, ResourcesOf, Data;
      var task := Look(i).task;
      count := count[task := Get(count, task, 0) + 1];
      if ResourcesOf(cfg, task) != map[] {
        used := used[h := consumed];
      }
    }

    /** The first idle executor, or a temporary one when there is none, runs the instance. */
    method Man(i: Id, h: HostId)
      modifies `instances, `idle, `made, `busy
      ensures instances == old(instances)[i := old(Look(i)).(target := h, started := true)]
      ensures busy == old(busy)[i := if old(idle) == [] then Executor(old(made), true) else old(idle)[0]]
      ensures idle == (if old(idle) == [] then [] else old(idle)[1..])
      ensures made == if old(idle) == [] then old(made) + 1 else old(made)
    {
      hide Data;
      instances := instances[i := Look(i).(target := h, started := true)];
      var executor;
      if idle == [] {
        executor := Executor(made, true);
        made := made + 1;
      } else {
        executor, idle := idle[0], idle[1..];
      }
      busy := busy[i := executor];
    }

    method StartTaskInstance(i: Id)
      modifies this
      ensures St() == Start(old(St()), i)
    {
      hide Start, M.Launch, Trigger, M.StopHerder, M.DropSheep, Candidates, Choose, Suits, Charged, Get, Data;
      StartIs(St(), i);
      var inst := Look(i);
      if inst.task !in cfg.tasks || inst.task !in enabled {
        return;
      }
      var task := cfg.tasks[inst.task];
      if idle == [] && !inst.force {
        return;
      }
      if Get(count, inst.task, 0) >= task.maxInstances && !inst.force {
        return;
      }
      var hosts := FindHosts(task.target);
      if hosts == [] {
        if inst.herd == i {
          StopHerder(i, true);
        } else {
          DropSheep(i, true);
        }
        return;
      }
      for k := 0 to |hosts|
        invariant Choose(St(), hosts, task.resources, inst.force)
               == Choose(St(), hosts[k..], task.resources, inst.force)
        invariant St() == old(St())
      {
        ChooseNext(St(), hosts[k..], task.resources, inst.force);
        assert hosts[k..][1..] == hosts[k+1..];
        var ok, consumed := TryHost(hosts[k], task.resources, inst.force);
        if ok {
          Launch(i, hosts[k], consumed);
          TriggerActions(i);
          return;
        }
      }
      ChooseNext(St(), [], task.resources, inst.force);
    }

    method StartAsManyTaskInstancesAsPossible()
      modifies this
      ensures St() == StartAll(old(St()), Ascending(old(St()).live, old(St()).next))
    {
      hide *;
      ghost var s0 := St();
      var ids := Detached();
      var k := 0;
      assert ids[0..] == ids;
      while k < |ids|
        invariant k <= |ids| && StartAll(s0, ids) == StartAll(St(), ids[k..])
      {
        Q.StartAllCases(St(), ids[k..]);
        assert ids[k..][1..] == ids[k+1..];
        var status := StatusIfKnown(ids[k], Queued);
        if status {
          StartTaskInstance(ids[k]);
        }
        k := k + 1;
      }
      assert ids[k..] == [];
      G.StartNobody(St());
    }

    /** A copy of the live map, which the steps of a loop over it may change. */
    method Detached() returns (ids: seq<Id>)
      ensures ids == Ascending(St().live, St().next)
    {
      ids := Ascending(unfinished, next);
    }

    method StatusIfKnown(i: Id, status: Status) returns (r: bool)
      ensures r <==> i in St().store && StatusAt(St(), i) == status
    {
      r := i in instances && StatusOf(instances[i]) == status;
    }

    /** The planned sheep of the herds marked dirty are queued or canceled when their conditions
        are met. */
    method EnqueueAsManyTaskInstancesAsPossible()
      modifies this
      ensures var s := old(St());
              St() == ReevaluateAll(s.(dirty := {}), Ascending(s.live, s.next), s.dirty)
    {
      var dirtyHerds := dirty;
      dirty := {};
      ghost var s0 := St();
      hide *;
      var ids := Detached();
      var k := 0;
      assert ids[0..] == ids;
      while k < |ids|
        invariant k <= |ids| && ReevaluateAll(s0, ids, dirtyHerds) == ReevaluateAll(St(), ids[k..], dirtyHerds)
      {
        Q.ReevaluateAllCases(St(), ids[k..], dirtyHerds);
        assert ids[k..][1..] == ids[k+1..];
        var soiled := InHerds(ids[k], dirtyHerds);
        if soiled {
          ReevaluateTaskInstance(ids[k]);
        }
        k := k + 1;
      }
      assert ids[k..] == [];
      G.StartNobody(St());
    }

    method InHerds(i: Id, herders: set<Id>) returns (r: bool)
      ensures r <==> i in St().store && Data(St(), i).herd in herders
    {
      r := i in instances && Look(i).herd in herders;
    }

    method ReevaluateTaskInstance(i: Id)
      modifies this
      ensures St() == Reevaluate(old(St()), i)
    {
      hide Reevaluate, Enqueue, M.Cancel, StatusOf, Herded, C.Holds;
      ReevaluateIs(St(), i);
      var inst := Look(i);
      if StatusOf(inst) != Planned {
        return;
      }
      var herder := if inst.herd in unfinished then StatusOf(Look(inst.herd)) else Failure;
      if herder == Planned || herder == Queued {
        return;
      }
      var herd := HerdStatuses(inst.herd);
      var holds := C.Evaluate(inst.queuewhen, herd);
      if holds {
        EnqueueTaskInstance(i);
        return;
      }
      holds := C.Evaluate(inst.cancelwhen, herd);
      if holds {
        DoCancelTaskInstance(i);
      }
    }

    method HerdStatuses(h: Id) returns (herd: map<Id, Status>)
      ensures herd == Herded(St(), h)
    {
      var sheep := HerdedTasks(h);
      herd := map i | i in sheep :: StatusOf(Look(i));
    }

    method DoAbortTaskInstance(i: Id)
      modifies this
      ensures St() == Abort(old(St()), i)
    {
      hide *;
      AbortCases(St(), i);
      var running := StatusIfKnown(i, Running);
      var waiting := StatusIfKnown(i, Waiting);
      if running || waiting {
        CancelOrAbortHerdedTasks(i);
      }
    }

    // -------------------------------------------------------------------------------------------
    // Reloading
    // -------------------------------------------------------------------------------------------

    /** Executors are added or removed one by one. */
    method ResizePool(max: nat)
      modifies `idle, `made
      ensures St() == Resize(old(St()), max)
    {
      hide NewExecutors;
      var toAdd := max - cfg.maxTotal;
      if toAdd < 0 {
        if -toAdd > |idle| {
          toAdd := -|idle|;
        }
        for n := 0 to -toAdd
          invariant idle == old(idle)[n..] && made == old(made)
        {
          idle := idle[1..];
        }
      } else {
        NewExecutorsNext(made, 0);
        for n := 0 to toAdd
          invariant idle == old(idle) + NewExecutors(old(made), n) && made == old(made) + n
        {
          NewExecutorsNext(old(made), n);
          idle := idle + [Executor(made, false)];
          made := made + 1;
        }
      }
    }

    method ActivateConfig(newCfg: Config)
      modifies this
      ensures St() == CancelOrphans(Activate(old(St()), newCfg), Ascending(old(St()).live, old(St()).next))
    {
      hide Activate, Resize, CancelOrphans, M.Cancel, Ascending;
      ghost var s0 := St();
      ActivateIs(St(), newCfg);
      ResizePool(newCfg.maxTotal);
      TakeTasks(newCfg);
      ghost var s1 := St();
      ResizeKeepsLive(s0, newCfg);
      var ids := Detached();
      var k := 0;
      assert ids[0..] == ids;
      while k < |ids|
        invariant k <= |ids| && CancelOrphans(s1, ids) == CancelOrphans(St(), ids[k..])
      {
        CancelOrphansNext(St(), ids[k..]);
        assert ids[k..][1..] == ids[k+1..];
        var cancelable := CanCancel(ids[k]);
        if cancelable && Look(ids[k]).task !in cfg.tasks {
          DoCancelTaskInstance(ids[k]);
        }
        k := k + 1;
      }
      assert ids[k..] == [];
      G.StartNobody(St());
    }

    /** Running counts and disablements of the tasks that stay are copied from the old ones. */
    method TakeTasks(newCfg: Config)
      modifies `cfg, `count, `enabled
      ensures St() == Copied(old(St()), newCfg)
    {
      hide Get;
      count := map t | t in newCfg.tasks :: if t in cfg.tasks then Get(count, t, 0) else 0;
      enabled := set t | t in newCfg.tasks && (t in cfg.tasks ==> t in enabled);
      cfg := newCfg;
    }

    // -------------------------------------------------------------------------------------------
    // Events
    // -------------------------------------------------------------------------------------------

    /** What subscriptions will plan while an event is handled. */
    method Expect(planned: seq<seq<Request>>)
      modifies `script
      ensures St() == old(St()).(script := planned)
    {
      script := planned;
    }

    /** Every event of the scheduler thread takes the step the model says. */
    method Handle(e: Event)
      requires Enabled(St(), e)
      modifies this
      ensures St() == Apply(old(St()), e)
    {
      hide Plan, ReevaluateAll, StartAll, Stop, M.Cancel, Abort, CancelOrphans, Activate, Ascending;
      match e {
        case PlanEvent(req, herd, planned) =>
          Expect(planned);
          DoPlanTask(req, herd, 0);
        case ReevaluateEvent(planned) =>
          Expect(planned);
          EnqueueAsManyTaskInstancesAsPossible();
        case StartEvent(planned) =>
          Expect(planned);
          StartAsManyTaskInstancesAsPossible();
        case StopEvent(i, ok, planned) =>
          Expect(planned);
          TaskInstanceStopped(i, ok);
        case CancelEvent(i, planned) =>
          if i in unfinished {
            Expect(planned);
            DoCancelTaskInstance(i);
          }
        case AbortEvent(i) =>
          if i in unfinished {
            DoAbortTaskInstance(i);
          }
        case EnableEvent(task, on) =>
          if task in cfg.tasks {
            enabled := if on then enabled + {task} else enabled - {task};
          }
        case HostsEvent(newUp, newOrder) =>
          up, order := newUp, newOrder;
        case ReloadEvent(newCfg, planned) =>
          Expect(planned);
          ActivateConfig(newCfg);
      }
    }
  }

  /** The finished sheep of a herd that are still in the live map. */
  ghost function FinishedSheep(s: State, h: Id): set<Id> {
    set j | j in Sheep(s, h) && Finished(StatusAt(s, j))
  }

  lemma ForgetIs(s: State, i: Id)
    ensures var h := Data(s, i).herd;
            M.Forget(s, i)
            == if h == i then s.(live := s.live - FinishedSheep(s, i) - {i}, awaited := s.awaited - {i},
                                 herds := s.herds - {i})
               else if h !in s.live then s.(live := s.live - {i})
               else s
  {
    hide StatusOf, Sheep, Data;
  }

  lemma CloseIs(s: State, i: Id, asFailure: bool)
    ensures var inst := Data(s, i);
            M.Close(s, i, asFailure)
            == if !inst.started then
                 Put(s, i, inst.(finished := true, success := false, started := asFailure, stopped := true))
               else
                 Put(M.GiveBack(s, i), i,
                     inst.(finished := true, success := Judge(PolicyOf(s, inst.task), inst.success, Herded(s, i))))
  {
    hide Judge, Herded, PolicyOf, M.GiveBack, Data, Put;
  }

  lemma FinishHerderIs(s: State, h: Id, asFailure: bool)
    ensures M.FinishHerder(s, h, asFailure) == M.Forget(M.Close(s, h, asFailure), h)
  {
    hide M.Forget, M.Close;
  }

  lemma DropSheepIs(s: State, i: Id, asFailure: bool)
    ensures M.DropSheep(s, i, asFailure) == M.Release(M.Forget(M.Close(s, i, asFailure), i), i)
  {
    hide M.Forget, M.Close, M.Release;
  }

  lemma DropFirst(s: State, ids: seq<Id>)
    requires ids != []
    ensures DropSheepOf(s, ids)
         == DropSheepOf(if Cancelable(s, ids[0]) then M.DropSheep(s, ids[0], false) else s, ids[1..])
  {
    hide M.DropSheep, Cancelable;
  }

  lemma DropNobody(s: State)
    ensures DropSheepOf(s, []) == s
  {
  }

  ghost function Alone(s: State, inst: Inst): State {
    s.(store := s.store[s.next := inst], live := s.live + {s.next}, next := s.next + 1)
  }

  ghost function InHerd(s: State, inst: Inst, herd: Id): State {
    var herder := Data(s, herd);
    s.(store := s.store[s.next := inst][herd := herder.(herded := herder.herded + {s.next})],
       live := s.live + {s.next}, next := s.next + 1,
       awaited := s.awaited[herd := Get(s.awaited, herd, {}) + {s.next}],
       herds := s.herds[herd := Get(s.herds, herd, {}) + {s.next}])
  }

  ghost function Appended(s: State, id: Id, herd: Id, herder: Inst): State {
    s.(store := s.store[herd := herder.(herded := herder.herded + {id})],
       awaited := s.awaited[herd := Get(s.awaited, herd, {}) + {id}],
       herds := s.herds[herd := Get(s.herds, herd, {}) + {id}])
  }

  lemma InHerdIs(s: State, inst: Inst, herd: Id)
    ensures InHerd(s, inst, herd) == Appended(Alone(s, inst), s.next, herd, Data(s, herd))
  {
    hide Get, Data;
  }

  lemma InsertIs(s: State, req: Request, herd: Id, parent: Id)
    ensures var herded := herd in s.live && herd in s.store;
            var inst := NewInst(s.next, req, herd, herded, parent);
            Insert(s, req, herd, parent) == if herded then InHerd(s, inst, herd) else Alone(s, inst)
  {
    hide NewInst, Get, Data;
  }

  lemma IsRival(s: State, i: Id, j: Id)
    ensures j in Rivals(s, i) <==> j in s.live && j in s.store && Duplicate(s.store[j], Data(s, i))
  {
    hide Duplicate;
  }

  ghost function QueuedAmong(s: State, ids: set<Id>): set<Id> {
    set j | j in ids && j in s.store && StatusOf(s.store[j]) == Queued
  }

  lemma QueuedOneMore(s: State, ids: set<Id>, j: Id)
    requires j !in ids
    ensures |QueuedAmong(s, ids + {j})|
         == |QueuedAmong(s, ids)| + if j in s.store && StatusOf(s.store[j]) == Queued then 1 else 0
  {
    hide StatusOf;
    assert QueuedAmong(s, ids + {j})
        == if j in s.store && StatusOf(s.store[j]) == Queued then QueuedAmong(s, ids) + {j} else QueuedAmong(s, ids);
  }

  lemma SurplusHead(all: seq<Id>, max: nat, keepLast: bool)
    requires |all| > max
    ensures Surplus(all, max, keepLast)
         == if keepLast then [all[0]] + Surplus(all[1..], max, keepLast)
            else [all[|all|-1]] + Surplus(all[..|all|-1], max, keepLast)
  {
    if keepLast {
      assert all[..|all| - max] == [all[0]] + all[1..][..|all| - 1 - max];
    } else {
      var rest := all[max..];
      assert all[..|all|-1][max..] == rest[..|rest|-1];
      ReversedTail(rest);
    }
  }

  lemma {:induction false} ReversedTail(s: seq<Id>)
    requires s != []
    ensures Reversed(s) == [s[|s|-1]] + Reversed(s[..|s|-1])
  {
    if |s| > 1 {
      ReversedTail(s[1..]);
      assert s[1..][..|s|-2] == s[..|s|-1][1..];
    }
  }

  lemma NoSurplus(all: seq<Id>, max: nat, keepLast: bool)
    requires |all| <= max
    ensures Surplus(all, max, keepLast) == []
  {
  }

  lemma CancelIs(s: State, i: Id)
    ensures M.Cancel(s, i)
         == if !Cancelable(s, i) then s
            else if Data(s, i).herd != i then M.DropSheep(s, i, false)
            else M.StopHerder(CancelHerd(s, i), i, false)
  {
    hide M.DropSheep, M.StopHerder, CancelHerd, Cancelable;
  }

  lemma StopHerderIs(s: State, h: Id, asFailure: bool)
    ensures var t := if StatusAt(s, h) == Canceled then s else Trigger(Watch(s, h), h);
            M.StopHerder(s, h, asFailure)
            == if StatusAt(t, h) == Canceled || Get(t.awaited, h, {}) == {} || PolicyOf(t, Data(t, h).task) == NoWait
               then M.FinishHerder(t, h, asFailure) else Soil(t, h)
  {
    hide Trigger, Watch, M.FinishHerder, StatusOf, PolicyOf;
  }

  lemma WatchIs(s: State, h: Id)
    ensures Watch(s, h) == s.(strayed := Watch(s, h).strayed)
  {
    hide Data;
  }

  lemma StopIs(s: State, i: Id, ok: bool)
    requires i in s.busy
    ensures var t := M.Vacate(s, i, ok);
            Stop(s, i, ok) == if Data(t, i).herd == i then M.StopHerder(t, i, false) else M.StopSheep(t, i)
  {
    hide M.Vacate, M.StopHerder, M.StopSheep;
  }

  lemma LaunchIs(s: State, i: Id, h: HostId)
    ensures var inst := Data(s, i);
            var t := inst.task;
            var resources := ResourcesOf(s.cfg, t);
            M.Launch(s, i, h)
            == s.(store := s.store[i := inst.(target := h, started := true)],
                  count := s.count[t := Get(s.count, t, 0) + 1],
                  used := if resources == map[] then s.used
                          else s.used[h := if inst.force then Get(s.used, h, map[])
                                           else Charged(Get(s.used, h, map[]), resources)],
                  idle := if s.idle == [] then [] else s.idle[1..],
                  made := if s.idle == [] then s.made + 1 else s.made,
                  busy := s.busy[i := if s.idle == [] then Executor(s.made, true) else s.idle[0]])
  {
    hide Charged, Get, ResourcesOf, Data;
  }

  lemma StartIs(s: State, i: Id)
    ensures var inst := Data(s, i);
            Start(s, i)
            == if inst.task !in s.cfg.tasks || inst.task !in s.enabled then s
               else if s.idle == [] && !inst.force then s
               else if Get(s.count, inst.task, 0) >= s.cfg.tasks[inst.task].maxInstances && !inst.force then s
               else
                 var hosts := Candidates(s, s.cfg.tasks[inst.task].target);
                 if hosts == [] then
                   if inst.herd == i then M.StopHerder(s, i, true) else M.DropSheep(s, i, true)
                 else
                   var chosen := Choose(s, hosts, s.cfg.tasks[inst.task].resources, inst.force);
                   if chosen == [] then s else Trigger(M.Launch(s, i, chosen[0]), i)
  {
    hide M.Launch, Trigger, M.StopHerder, M.DropSheep, Candidates, Choose, Data, Get;
  }

  lemma ChooseNext(s: State, hosts: seq<HostId>, resources: map<Kind, nat>, force: bool)
    ensures Choose(s, hosts, resources, force)
         == if hosts == [] then []
            else if Suits(s, hosts[0], resources, force) then [hosts[0]]
            else Choose(s, hosts[1..], resources, force)
  {
    hide Suits;
  }

  /** The resources given back so far, those in todo remaining. */
  ghost function PartCredited(consumed: map<Kind, int>, resources: map<Kind, nat>, todo: set<Kind>): map<Kind, int> {
    map k | k in consumed.Keys + (resources.Keys - todo) ::
      Get(consumed, k, 0) - if k in todo then 0 else Get(resources, k, 0)
  }

  lemma PartCreditedEnds(consumed: map<Kind, int>, resources: map<Kind, nat>)
    ensures PartCredited(consumed, resources, resources.Keys) == consumed
    ensures PartCredited(consumed, resources, {}) == Credited(consumed, resources)
  {
  }

  lemma PartCreditedNext(consumed: map<Kind, int>, resources: map<Kind, nat>, todo: set<Kind>, k: Kind)
    requires k in todo && todo <= resources.Keys
    ensures var part := PartCredited(consumed, resources, todo);
            PartCredited(consumed, resources, todo - {k}) == part[k := Get(part, k, 0) - resources[k]]
  {
  }

  /** The resources charged so far, those in todo remaining. */
  ghost function PartCharged(consumed: map<Kind, int>, resources: map<Kind, nat>, todo: set<Kind>): map<Kind, int> {
    map k | k in consumed.Keys + (resources.Keys - todo) ::
      Get(consumed, k, 0) + if k in todo then 0 else Get(resources, k, 0)
  }

  lemma PartChargedEnds(consumed: map<Kind, int>, resources: map<Kind, nat>)
    ensures PartCharged(consumed, resources, resources.Keys) == consumed
    ensures PartCharged(consumed, resources, {}) == Charged(consumed, resources)
  {
  }

  lemma PartChargedNext(consumed: map<Kind, int>, resources: map<Kind, nat>, todo: set<Kind>, k: Kind)
    requires k in todo && todo <= resources.Keys
    ensures var part := PartCharged(consumed, resources, todo);
            && Get(part, k, 0) == Get(consumed, k, 0)
            && PartCharged(consumed, resources, todo - {k}) == part[k := Get(part, k, 0) + resources[k]]
  {
  }

  lemma ReevaluateIs(s: State, i: Id)
    ensures var inst := Data(s, i);
            var herder := LiveStatus(s, inst.herd);
            Reevaluate(s, i)
            == if StatusOf(inst) != Planned || herder == Planned || herder == Queued then s
               else if C.Holds(inst.queuewhen, Herded(s, inst.herd)) then Enqueue(s, i)
               else if C.Holds(inst.cancelwhen, Herded(s, inst.herd)) then M.Cancel(s, i)
               else s
  {
    hide Enqueue, M.Cancel, StatusOf, Herded, C.Holds, Data;
  }

  lemma AbortCases(s: State, i: Id)
    ensures Abort(s, i)
         == if i in s.store && (StatusAt(s, i) == Running || StatusAt(s, i) == Waiting) then CancelHerd(s, i) else s
  {
    hide CancelHerd, StatusOf;
  }

  lemma NewExecutorsNext(from: nat, n: nat)
    ensures NewExecutors(from, n + 1) == NewExecutors(from, n) + [Executor(from + n, false)]
    ensures NewExecutors(from, 0) == []
  {
  }

  ghost function Copied(s: State, cfg: Config): State {
    s.(cfg := cfg,
       count := map t | t in cfg.tasks :: if t in s.cfg.tasks then Get(s.count, t, 0) else 0,
       enabled := set t | t in cfg.tasks && (t in s.cfg.tasks ==> t in s.enabled))
  }

  lemma ActivateIs(s: State, cfg: Config)
    ensures Activate(s, cfg) == Copied(Resize(s, cfg.maxTotal), cfg)
  {
    hide Resize;
    R.ResizeEffect(s, cfg.maxTotal);
  }

  lemma ResizeKeepsLive(s: State, cfg: Config)
    ensures Activate(s, cfg).live == s.live && Activate(s, cfg).next == s.next
  {
    hide Resize;
    R.ResizeEffect(s, cfg.maxTotal);
  }

  lemma CancelOrphansNext(s: State, ids: seq<Id>)
    requires ids != []
    ensures var orphan := Cancelable(s, ids[0]) && Data(s, ids[0]).task !in s.cfg.tasks;
            CancelOrphans(s, ids) == CancelOrphans(if orphan then M.Cancel(s, ids[0]) else s, ids[1..])
  {
    R.OrphansCases(s, ids);
    hide *;
  }
}
