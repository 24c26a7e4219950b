/** The scheduler of task instances as a state and the steps that change it.

    Instances are shared records: every index of the program points to the same data. The model
    keeps the data of every instance ever planned in "store"; "live" is the set of keys of the
    map of unfinished instances, the other indexes hold ids as they do in the program. */
module SchedulerModel {
  import opened TaskStatus
  import opened Totals
  import C = Conditions

  type Id = nat
  type TaskId = string
  type HostId = string
  type Kind = string

  // ---------------------------------------------------------------------------------------------
  // Task instances
  // ---------------------------------------------------------------------------------------------

  /** A timestamp is modelled by whether it is set. The field "reported" is the success the
      executor gave, which the program overwrites when a herder finishes. */
  datatype Inst = Inst(
    task: TaskId, force: bool, herd: Id, criterion: string,
    queuewhen: C.Condition, cancelwhen: C.Condition,
    queued: bool, started: bool, stopped: bool, finished: bool,
    success: bool, reported: bool, target: HostId, herded: set<Id>)

  function StatusOf(i: Inst): Status {
    if i.finished then
      if !i.started then Canceled else if i.success then Success else Failure
    else if i.stopped then
      if !i.started then Canceled else Waiting
    else if i.started then Running
    else if i.queued then Queued
    else Planned
  }

  // ---------------------------------------------------------------------------------------------
  // Configuration, requests and state
  // ---------------------------------------------------------------------------------------------

  datatype HerdingPolicy = AllSuccess | NoFailure | OneSuccess | OwnStatus | NoWait

  /** The resources include the one the program adds for maxperhost. */
  datatype Task = Task(
    maxInstances: nat, resources: map<Kind, nat>, target: string, policy: HerdingPolicy,
    maxQueued: nat, keepLast: bool)

  datatype Config = Config(
    tasks: map<TaskId, Task>, hosts: map<HostId, map<Kind, nat>>, maxTotal: nat, maxQueued: nat)

  /** What a plan-task action, a trigger or an API call asks for. */
  datatype Request = Request(
    task: TaskId, force: bool, lone: bool, criterion: string,
    queuewhen: C.Condition, cancelwhen: C.Condition)

  datatype Executor = Executor(number: nat, temporary: bool)

  /** The field "script" is what event subscriptions will plan: each time the program triggers
      the plan, start or finish actions of an instance, the next list of the script is taken.
      "order" gives, for each cluster, its hosts in the order they are to be tried.
      "again" and "strayed" only observe: the started herders that were finished although they
      were already finished, and whether canceling an instance has planned new ones. */
  datatype State = State(
    cfg: Config, enabled: set<TaskId>, up: set<HostId>, order: map<string, seq<HostId>>,
    store: map<Id, Inst>, next: Id,
    live: set<Id>, herds: map<Id, set<Id>>, awaited: map<Id, set<Id>>, dirty: set<Id>,
    idle: seq<Executor>, busy: map<Id, Executor>, made: nat,
    count: map<TaskId, int>, used: map<HostId, map<Kind, int>>,
    script: seq<seq<Request>>, again: seq<Id>, strayed: bool)

  function Get<K, V>(m: map<K, V>, k: K, default: V): V {
    if k in m then m[k] else default
  }

  /** The data of an instance; that of an unknown id reads as a null instance, which failed. */
  const NULL_INST := Inst("", false, 0, "", C.NullCondition, C.NullCondition,
                          true, true, true, true, false, false, "", {})

  function Data(s: State, i: Id): Inst {
    Get(s.store, i, NULL_INST)
  }

  function StatusAt(s: State, i: Id): Status {
    StatusOf(Data(s, i))
  }

  /** The status of an instance looked up in the live map. */
  function LiveStatus(s: State, i: Id): Status {
    if i in s.live then StatusAt(s, i) else Failure
  }

  function PolicyOf(s: State, t: TaskId): HerdingPolicy {
    if t in s.cfg.tasks then s.cfg.tasks[t].policy else OwnStatus
  }

  function ResourcesOf(cfg: Config, t: TaskId): map<Kind, nat> {
    if t in cfg.tasks then cfg.tasks[t].resources else map[]
  }

  /** The ids of a set, lowest first, as a map ordered by id is walked. */
  function Ascending(ids: set<Id>, below: nat): (r: seq<Id>)
    ensures forall k :: 0 <= k < |r| ==> r[k] in ids && r[k] < below
    ensures forall i :: i in ids && i < below ==> i in r
    ensures forall j, k :: 0 <= j < k < |r| ==> r[j] < r[k]
  {
    if below == 0 then []
    else
      var before := Ascending(ids, below - 1);
      if below - 1 in ids then before + [below - 1] else before
  }

  // ---------------------------------------------------------------------------------------------
  // Steps that call no action
  // ---------------------------------------------------------------------------------------------

  function Put(s: State, i: Id, inst: Inst): State {
    s.(store := s.store[i := inst])
  }

  function Soil(s: State, h: Id): State {
    s.(dirty := s.dirty + {h})
  }

  /** The queue and cancel conditions a new instance gets. */
  function Conditions(req: Request, herded: bool, parent: Id): (C.Condition, C.Condition) {
    var q := if !herded then C.NullCondition else req.queuewhen;
    var c := if !herded then C.NullCondition else req.cancelwhen;
    var q' := if C.Empty(q) && herded then C.TaskWait(C.AllStarted, {parent}) else q;
    (q', if C.Empty(c) then C.Guess(q', c) else c)
  }

  function NewInst(id: Id, req: Request, herd: Id, herded: bool, parent: Id): Inst {
    var (q, c) := Conditions(req, herded, parent);
    Inst(req.task, req.force, if herd == 0 then id else herd, req.criterion, q, c,
         false, false, false, false, false, false, "", {})
  }

  /** A new instance enters the live map, and the indexes of its herd when its herder is live. */
  function Insert(s: State, req: Request, herd: Id, parent: Id): (t: State)
    ensures t.script == s.script && t.strayed == s.strayed
  {
    var herded := herd in s.live && herd in s.store;
    Enter(s, NewInst(s.next, req, herd, herded, parent), herd, herded)
  }

  function Enter(s: State, inst: Inst, herd: Id, herded: bool): (t: State)
    ensures t.script == s.script && t.strayed == s.strayed
  {
    var id := s.next;
    var store := s.store[id := inst];
    if !herded then
      s.(store := store, live := s.live + {id}, next := id + 1)
    else
      var herder := Data(s, herd);
      s.(store := store[herd := herder.(herded := herder.herded + {id})],
         live := s.live + {id}, next := id + 1,
         awaited := s.awaited[herd := Get(s.awaited, herd, {}) + {id}],
         herds := s.herds[herd := Get(s.herds, herd, {}) + {id}])
  }

  /** The members of a herd that are still in the live map, finished ones included. */
  function Sheep(s: State, h: Id): set<Id> {
    set i | i in Get(s.herds, h, {}) && i in s.live && i in s.store
  }

  function Herded(s: State, h: Id): map<Id, Status> {
    map i | i in Sheep(s, h) :: StatusAt(s, i)
  }

  /** The success of a herder, given the one reported by its executor and its sheep. */
  function Judge(policy: HerdingPolicy, own: bool, sheep: map<Id, Status>): bool {
    if sheep == map[] then own
    else
      match policy
      case AllSuccess => own && forall i <- sheep :: sheep[i] == Success
      case NoFailure => own && forall i <- sheep :: sheep[i] != Failure
      case OneSuccess => exists i <- sheep :: sheep[i] == Success
      case OwnStatus => own
      case NoWait => own
  }

  function Credited(used: map<Kind, int>, resources: map<Kind, nat>): map<Kind, int> {
    map k | k in used.Keys + resources.Keys :: Get(used, k, 0) - Get(resources, k, 0)
  }

  function Charged(used: map<Kind, int>, resources: map<Kind, nat>): map<Kind, int> {
    map k | k in used.Keys + resources.Keys :: Get(used, k, 0) + Get(resources, k, 0)
  }

  /** An instance gets its finish timestamp: canceled, or failed on demand, when it never
      started; otherwise a herder is judged on its sheep. */
  function Closed(s: State, i: Id, asFailure: bool): Inst {
    var inst := Data(s, i);
    if !inst.started then
      inst.(finished := true, success := false, started := asFailure, stopped := true)
    else
      inst.(finished := true, success := Judge(PolicyOf(s, inst.task), inst.success, Herded(s, i)))
  }

  /** The slot and the resources of a started instance are given back. */
  function GiveBack(s: State, i: Id): (t: State)
    ensures t.script == s.script && t.strayed == s.strayed
  {
    var inst := Data(s, i);
    var t := inst.task;
    s.(count := if t in s.cfg.tasks then s.count[t := Get(s.count, t, 0) - 1] else s.count,
       used := s.used[inst.target := Credited(Get(s.used, inst.target, map[]), ResourcesOf(s.cfg, t))],
       again := if i in s.live then s.again else s.again + [i])
  }

  function Close(s: State, i: Id, asFailure: bool): (t: State)
    ensures t.script == s.script && t.strayed == s.strayed
  {
    var inst := Closed(s, i, asFailure);
    if Data(s, i).started then Put(GiveBack(s, i), i, inst) else Put(s, i, inst)
  }

  /** A finished herder leaves the indexes with its finished sheep; a finished sheep leaves the
      live map only when its herder is no longer there. */
  function Forget(s: State, i: Id): (t: State)
    ensures t.script == s.script && t.strayed == s.strayed
  {
    var h := Data(s, i).herd;
    if h == i then
      var gone := set j | j in Sheep(s, i) && Finished(StatusAt(s, j));
      s.(live := s.live - gone - {i}, awaited := s.awaited - {i}, herds := s.herds - {i})
    else if h !in s.live then
      s.(live := s.live - {i})
    else
      s
  }

  /** A herder is finished or canceled. Its remaining finish actions plan nothing. */
  function FinishHerder(s: State, h: Id, asFailure: bool): (t: State)
    ensures t.script == s.script && t.strayed == s.strayed
  {
    Forget(Close(s, h, asFailure), h)
  }

  /** A finished sheep is no longer awaited; the last one finishes a waiting herder. */
  function Release(s: State, i: Id): (t: State)
    ensures t.script == s.script && t.strayed == s.strayed
  {
    var h := Data(s, i).herd;
    if h !in s.awaited then s
    else
      var t := s.(awaited := s.awaited[h := s.awaited[h] - {i}]);
      if t.awaited[h] == {} && StatusAt(t, h) == Waiting then FinishHerder(t, h, false)
      else Soil(t, h)
  }

  /** A sheep that never started is canceled, or marked as failed: no action is triggered. */
  function DropSheep(s: State, i: Id, asFailure: bool): (t: State)
    ensures t.script == s.script && t.strayed == s.strayed
  {
    Release(Forget(Close(s, i, asFailure), i), i)
  }

  predicate Cancelable(s: State, i: Id) {
    i in s.store && (StatusAt(s, i) == Planned || StatusAt(s, i) == Queued)
  }

  /** The planned and queued ones among some sheep are canceled. */
  ghost function DropSheepOf(s: State, ids: seq<Id>): (t: State)
    ensures t.script == s.script && t.strayed == s.strayed
    decreases |ids|
  {
    if ids == [] then s
    else
      var t := if Cancelable(s, ids[0]) then DropSheep(s, ids[0], false) else s;
      DropSheepOf(t, ids[1..])
  }

  ghost function CancelHerd(s: State, h: Id): (t: State)
    ensures t.script == s.script && t.strayed == s.strayed
  {
    DropSheepOf(s, Ascending(Sheep(s, h), s.next))
  }

  // ---------------------------------------------------------------------------------------------
  // Starting an instance
  // ---------------------------------------------------------------------------------------------

  /** The hosts to try for a target: the host itself, or the available hosts of the cluster. */
  function Candidates(s: State, target: string): seq<HostId> {
    if target in s.cfg.hosts then [target]
    else Available(Get(s.order, target, []), s.up)
  }

  function Available(hosts: seq<HostId>, up: set<HostId>): (r: seq<HostId>)
    ensures forall h :: h in r <==> h in hosts && h in up
  {
    if hosts == [] then []
    else (if hosts[0] in up then [hosts[0]] else []) + Available(hosts[1..], up)
  }

  predicate Fits(s: State, h: HostId, resources: map<Kind, nat>) {
    forall k <- resources ::
      resources[k] <= Get(Get(s.cfg.hosts, h, map[]), k, 0) - Get(Get(s.used, h, map[]), k, 0)
  }

  predicate Suits(s: State, h: HostId, resources: map<Kind, nat>, force: bool) {
    h in s.up && (force || Fits(s, h, resources))
  }

  /** The first host that suits, or none. */
  function Choose(s: State, hosts: seq<HostId>, resources: map<Kind, nat>, force: bool): (r: seq<HostId>)
    ensures |r| <= 1 && (r == [] <==> forall h <- hosts :: !Suits(s, h, resources, force))
    ensures r != [] ==> r[0] in hosts && Suits(s, r[0], resources, force)
  {
    if hosts == [] then []
    else if Suits(s, hosts[0], resources, force) then [hosts[0]]
    else Choose(s, hosts[1..], resources, force)
  }

  /** An instance runs on a host: resources are charged unless it is forced, an idle executor is
      taken, or a temporary one made when there is none. */
  function Launch(s: State, i: Id, h: HostId): (t: State)
    ensures t.script == s.script && t.strayed == s.strayed
  {
    var inst := Data(s, i);
    var t := inst.task;
    var resources := ResourcesOf(s.cfg, t);
    var used := if resources == map[] then s.used
                else s.used[h := if inst.force then Get(s.used, h, map[])
                                 else Charged(Get(s.used, h, map[]), resources)];
    var executor := if s.idle == [] then Executor(s.made, true) else s.idle[0];
    s.(store := s.store[i := inst.(target := h, started := true)],
       count := s.count[t := Get(s.count, t, 0) + 1],
       used := used,
       idle := if s.idle == [] then [] else s.idle[1..],
       made := if s.idle == [] then s.made + 1 else s.made,
       busy := s.busy[i := executor])
  }

  // ---------------------------------------------------------------------------------------------
  // Steps that trigger actions, which plan instances, which trigger actions
  // ---------------------------------------------------------------------------------------------

  /** Where the requests of an instance's actions are planned. */
  function HerdFor(s: State, req: Request, i: Id): Id
  {
    if req.lone then 0 else Data(s, i).herd
  }

  /** The plan-task actions of a subscription, one after the other. */
  ghost function PlanAll(s: State, reqs: seq<Request>, i: Id): (t: State)
    ensures |t.script| <= |s.script| && (s.strayed ==> t.strayed)
    decreases |s.script|, 7, |reqs|
  {
    if reqs == [] then s
    else
      var t := Plan(s, reqs[0], HerdFor(s, reqs[0], i), i);
      PlanAll(t, reqs[1..], i)
  }

  ghost function Trigger(s: State, i: Id): (t: State)
    ensures |t.script| <= |s.script| && (s.strayed ==> t.strayed)
    decreases |s.script|, 0, 0
  {
    if s.script == [] then s
    else PlanAll(s.(script := s.script[1..]), s.script[0], i)
  }

  ghost function Plan(s: State, req: Request, herd: Id, parent: Id): (t: State)
    ensures |t.script| <= |s.script| && (s.strayed ==> t.strayed)
    decreases |s.script|, 6, 0
  {
    if req.task !in s.cfg.tasks || req.task !in s.enabled then s
    else
      var t := Trigger(Insert(s, req, herd, parent), s.next);
      if herd in s.live && herd in s.store then Soil(t, herd) else Enqueue(t, s.next)
  }

  /** The queued instances of the same task with the same deduplicate criterion, then itself. */
  ghost function Duplicates(s: State, i: Id): seq<Id>
  {
    Ascending(Rivals(s, i), s.next) + [i]
  }

  function Rivals(s: State, i: Id): set<Id> {
    set j | j in s.live && j in s.store && Duplicate(Data(s, j), Data(s, i))
  }

  predicate Duplicate(other: Inst, inst: Inst) {
    StatusOf(other) == Queued && other.task == inst.task && other.criterion == inst.criterion
  }

  /** Which duplicates go, in the order they are canceled. */
  function Surplus(duplicates: seq<Id>, max: nat, keepLast: bool): seq<Id> {
    var n := |duplicates| - max;
    if n <= 0 then []
    else if keepLast then duplicates[..n]
    else Reversed(duplicates[max..])
  }

  function Reversed(s: seq<Id>): (r: seq<Id>)
    ensures |r| == |s| && forall i :: i in r <==> i in s
  {
    if s == [] then [] else Reversed(s[1..]) + [s[0]]
  }

  function MaxQueued(s: State, i: Id): nat
  {
    if Data(s, i).task in s.cfg.tasks then s.cfg.tasks[Data(s, i).task].maxQueued else 0
  }

  function KeepLast(s: State, i: Id): bool
  {
    Data(s, i).task in s.cfg.tasks && s.cfg.tasks[Data(s, i).task].keepLast
  }

  function QueueSize(s: State): nat {
    |set j | j in s.live && j in s.store && StatusAt(s, j) == Queued|
  }

  /** The queue timestamp is set unless too many instances are queued already. */
  function Admit(s: State, i: Id): (t: State)
    ensures t.script == s.script && t.strayed == s.strayed
  {
    if QueueSize(s) >= s.cfg.maxQueued then s
    else s.(store := s.store[i := Data(s, i).(queued := true)], live := s.live + {i})
  }

  ghost function Enqueue(s: State, i: Id): (t: State)
    ensures |t.script| <= |s.script| && (s.strayed ==> t.strayed)
    decreases |s.script|, 5, 0
  {
    if Data(s, i).force then Admit(s, i)
    else if Data(s, i).task !in s.enabled then Cancel(s, i)
    else if MaxQueued(s, i) == 0 then Admit(s, i)
    else
      var surplus := Surplus(Duplicates(s, i), MaxQueued(s, i), KeepLast(s, i));
      var t := CancelAll(s, surplus);
      if i in surplus then t else Admit(t, i)
  }

  ghost function CancelAll(s: State, ids: seq<Id>): (t: State)
    ensures |t.script| <= |s.script| && (s.strayed ==> t.strayed)
    decreases |s.script|, 4, |ids|
  {
    if ids == [] then s else CancelAll(Cancel(s, ids[0]), ids[1..])
  }

  /** Only planned and queued instances can be canceled. Herds are flat: only a herder has sheep
      to cancel first. */
  ghost function Cancel(s: State, i: Id): (t: State)
    ensures |t.script| <= |s.script| && (s.strayed ==> t.strayed)
    decreases |s.script|, 3, 0
  {
    if !Cancelable(s, i) then s
    else if Data(s, i).herd != i then DropSheep(s, i, false)
    else StopHerder(CancelHerd(s, i), i, false)
  }

  /** A herder stopped, or is to be canceled: the actions that may plan sheep run first, then it
      finishes unless it has sheep to wait for. */
  ghost function StopHerder(s: State, h: Id, asFailure: bool): (t: State)
    ensures |t.script| <= |s.script| && (s.strayed ==> t.strayed)
    decreases |s.script|, 2, 0
  {
    var t := if StatusAt(s, h) == Canceled then s else Trigger(Watch(s, h), h);
    if || StatusAt(t, h) == Canceled
       || Get(t.awaited, h, {}) == {}
       || PolicyOf(t, Data(t, h).task) == NoWait
    then FinishHerder(t, h, asFailure)
    else Soil(t, h)
  }

  /** A request for a task that exists and is enabled. */
  predicate Known(s: State, req: Request) {
    req.task in s.cfg.tasks && req.task in s.enabled
  }

  /** Observe that an instance that never started has finish actions that plan something. */
  function Watch(s: State, h: Id): State
  {
    if !Data(s, h).started && s.script != [] && exists r <- s.script[0] :: Known(s, r) then s.(strayed := true) else s
  }

  /** A sheep stopped: it finishes at once, its actions run, then it is no longer awaited. */
  ghost function StopSheep(s: State, i: Id): (t: State)
    ensures |t.script| <= |s.script| && (s.strayed ==> t.strayed)
  {
    Release(Forget(Trigger(Close(s, i, false), i), i), i)
  }

  /** Try to start a queued instance. */
  ghost function Start(s: State, i: Id): (t: State)
    ensures |t.script| <= |s.script| && (s.strayed ==> t.strayed)
  {
    var inst := Data(s, i);
    if inst.task !in s.cfg.tasks || inst.task !in s.enabled then s
    else if s.idle == [] && !inst.force then s
    else if Get(s.count, inst.task, 0) >= s.cfg.tasks[inst.task].maxInstances && !inst.force then s
    else
      var hosts := Candidates(s, s.cfg.tasks[inst.task].target);
      if hosts == [] then
        if inst.herd == i then StopHerder(s, i, true) else DropSheep(s, i, true)
      else
        var chosen := Choose(s, hosts, s.cfg.tasks[inst.task].resources, inst.force);
        if chosen == [] then s else Trigger(Launch(s, i, chosen[0]), i)
  }

  ghost function StartAll(s: State, ids: seq<Id>): (t: State)
    ensures |t.script| <= |s.script| && (s.strayed ==> t.strayed)
    decreases |ids|
  {
    if ids == [] then s
    else
      var t := if ids[0] in s.store && StatusAt(s, ids[0]) == Queued then Start(s, ids[0]) else s;
      StartAll(t, ids[1..])
  }

  /** Reevaluate one planned sheep whose herd is dirty. */
  ghost function Reevaluate(s: State, i: Id): (t: State)
    ensures |t.script| <= |s.script| && (s.strayed ==> t.strayed)
  {
    var inst := Data(s, i);
    var herder := LiveStatus(s, inst.herd);
    if StatusOf(inst) != Planned || herder == Planned || herder == Queued then s
    else if C.Holds(inst.queuewhen, Herded(s, inst.herd)) then Enqueue(s, i)
    else if C.Holds(inst.cancelwhen, Herded(s, inst.herd)) then Cancel(s, i)
    else s
  }

  ghost function ReevaluateAll(s: State, ids: seq<Id>, dirty: set<Id>): (t: State)
    ensures |t.script| <= |s.script| && (s.strayed ==> t.strayed)
    decreases |ids|
  {
    if ids == [] then s
    else
      var t := if ids[0] in s.store && Data(s, ids[0]).herd in dirty then Reevaluate(s, ids[0]) else s;
      ReevaluateAll(t, ids[1..], dirty)
  }

  // ---------------------------------------------------------------------------------------------
  // Reloading the configuration: the pool of executors
  // ---------------------------------------------------------------------------------------------

  function NewExecutors(from: nat, n: nat): (r: seq<Executor>)
    ensures |r| == n && forall k :: 0 <= k < n ==> r[k] == Executor(from + k, false)
  {
    if n == 0 then [] else NewExecutors(from, n - 1) + [Executor(from + n - 1, false)]
  }

  /** Executors are added, or idle ones removed, by the difference of the two maximums; no more
      than the idle ones can be removed. */
  function Resize(s: State, max: nat): State {
    var toAdd := max - s.cfg.maxTotal;
    if toAdd < 0 then
      var toRemove := if -toAdd > |s.idle| then |s.idle| else -toAdd;
      s.(idle := s.idle[toRemove..])
    else
      s.(idle := s.idle + NewExecutors(s.made, toAdd), made := s.made + toAdd)
  }

  /** The running count of a task survives a reload; a new task starts from zero. */
  function Activate(s: State, cfg: Config): State {
    Resize(s, cfg.maxTotal).(
      cfg := cfg,
      count := map t | t in cfg.tasks :: if t in s.cfg.tasks then Get(s.count, t, 0) else 0,
      enabled := set t | t in cfg.tasks && (t in s.cfg.tasks ==> t in s.enabled))
  }

  /** Planned and queued instances whose task no longer exists are canceled. */
  ghost function CancelOrphans(s: State, ids: seq<Id>): (t: State)
    ensures |t.script| <= |s.script| && (s.strayed ==> t.strayed)
    decreases |ids|
  {
    if ids == [] then s
    else
      var orphan := Cancelable(s, ids[0]) && Data(s, ids[0]).task !in s.cfg.tasks;
      CancelOrphans(if orphan then Cancel(s, ids[0]) else s, ids[1..])
  }

  // ---------------------------------------------------------------------------------------------
  // Events and runs
  // ---------------------------------------------------------------------------------------------

  /** One event handled by the scheduler thread. Each carries what the actions it triggers plan. */
  datatype Event =
    | PlanEvent(req: Request, herd: Id, script: seq<seq<Request>>)
    | ReevaluateEvent(script: seq<seq<Request>>)
    | StartEvent(script: seq<seq<Request>>)
    | StopEvent(i: Id, ok: bool, script: seq<seq<Request>>)
    | CancelEvent(i: Id, script: seq<seq<Request>>)
    | AbortEvent(i: Id)
    | EnableEvent(task: TaskId, on: bool)
    | HostsEvent(up: set<HostId>, order: map<string, seq<HostId>>)
    | ReloadEvent(cfg: Config, script: seq<seq<Request>>)

  /** A herd given to the API is that of a herder; an executor stops what it is running. */
  predicate Enabled(s: State, e: Event) {
    match e
    case PlanEvent(_, herd, _) => herd == 0 || (herd in s.store && Data(s, herd).herd == herd)
    case StopEvent(i, _, _) => i in s.busy && i in s.store
    case _ => true
  }

  ghost function Apply(s: State, e: Event): State
    requires Enabled(s, e)
  {
    match e
    case PlanEvent(req, herd, script) => Plan(s.(script := script), req, herd, 0)
    case ReevaluateEvent(script) =>
      ReevaluateAll(s.(script := script, dirty := {}), Ascending(s.live, s.next), s.dirty)
    case StartEvent(script) => StartAll(s.(script := script), Ascending(s.live, s.next))
    case StopEvent(i, ok, script) => Stop(s.(script := script), i, ok)
    case CancelEvent(i, script) =>
      if i in s.live then Cancel(s.(script := script), i) else s
    case AbortEvent(i) => if i in s.live then Abort(s, i) else s
    case EnableEvent(task, on) =>
      if task !in s.cfg.tasks then s
      else s.(enabled := if on then s.enabled + {task} else s.enabled - {task})
    case HostsEvent(up, order) => s.(up := up, order := order)
    case ReloadEvent(cfg, script) =>
      CancelOrphans(Activate(s.(script := script), cfg), Ascending(s.live, s.next))
  }

  /** The executor of an instance stops it, and becomes idle again unless it was temporary. */
  function Vacate(s: State, i: Id, ok: bool): State
    requires i in s.busy
  {
    s.(store := s.store[i := Data(s, i).(stopped := true, success := ok, reported := ok)],
       idle := if s.busy[i].temporary then s.idle else s.idle + [s.busy[i]],
       busy := s.busy - {i})
  }

  ghost function Stop(s: State, i: Id, ok: bool): (t: State)
    requires i in s.busy
  {
    var t := Vacate(s, i, ok);
    if Data(t, i).herd == i then StopHerder(t, i, false) else StopSheep(t, i)
  }

  /** Aborting cancels the planned and queued sheep; the executors that run the instance and its
      running sheep are told to stop, which they do in later events. */
  ghost function Abort(s: State, i: Id): (t: State)
  {
    if i in s.store && Active(StatusAt(s, i)) then CancelHerd(s, i) else s
  }

  function Initial(cfg: Config, up: set<HostId>, order: map<string, seq<HostId>>): State {
    State(cfg, cfg.tasks.Keys, up, order, map[], 1, {}, map[], map[], {},
          NewExecutors(0, cfg.maxTotal), map[], cfg.maxTotal, map[], map[], [], [], false)
  }
}
