/** What every step of the scheduler keeps. */
module SchedulerInvariants {
  import opened TaskStatus
  import opened Totals
  import opened SchedulerModel
  import C = Conditions

  type Store = map<Id, Inst>

  // ---------------------------------------------------------------------------------------------
  // Instances and indexes
  // ---------------------------------------------------------------------------------------------

  ghost predicate Done(store: Store, i: Id)
    requires i in store
  {
    Finished(StatusOf(store[i]))
  }

  ghost predicate Unready(store: Store, i: Id)
    requires i in store
  {
    StatusOf(store[i]) == Planned || StatusOf(store[i]) == Queued
  }

  ghost predicate IsHerder(store: Store, h: Id) {
    h in store && store[h].herd == h
  }

  /** Herds are flat, and the timestamps of an instance are coherent. */
  ghost predicate Shape(s: State) {
    && 0 < s.next
    && s.live <= s.store.Keys
    && (forall i <- s.store ::
          && 0 < i < s.next
          && IsHerder(s.store, s.store[i].herd)
          && Coherent(s.store[i]))
  }

  ghost predicate Coherent(i: Inst) {
    && (i.stopped && !i.started ==> i.finished)
    && (i.reported ==> i.started && i.stopped)
    && (!i.finished ==> i.success == i.reported)
    && (!i.started ==> !i.success && i.target == "")
  }

  /** The live map holds every unfinished instance, and of the finished ones only sheep whose
      herder is still there. The instances in "limbo" are being stopped: a sheep that is still
      awaited and live while its actions run, a herder that may have nothing to wait for. */
  ghost predicate Clean(s: State, limbo: set<Id>) {
    && (forall i <- s.store :: !Done(s.store, i) ==> i in s.live)
    && (forall i <- s.live | i in s.store :: Done(s.store, i) ==>
          s.store[i].herd != i && (i in limbo || s.store[i].herd in s.live))
    && (forall i <- limbo :: i in s.store &&
          (Done(s.store, i) || (StatusOf(s.store[i]) == Waiting && s.store[i].herd == i)))
  }

  /** The sheep of a herd. */
  ghost function Members(store: Store, h: Id): set<Id> {
    set i | i in store && store[i].herd == h && i != h
  }

  /** Those that are not finished, or in limbo. */
  ghost function Pending(store: Store, h: Id, limbo: set<Id>): set<Id> {
    set i | i in Members(store, h) && (!Done(store, i) || i in limbo)
  }

  /** The indexes of a live herder are its sheep, all live, and those it still awaits. */
  ghost predicate HerdIndexed(s: State, limbo: set<Id>, h: Id)
    requires h in s.store
  {
    && Get(s.herds, h, {}) == Members(s.store, h)
    && Get(s.awaited, h, {}) == Pending(s.store, h, limbo)
    && s.store[h].herded == Members(s.store, h)
    && Members(s.store, h) <= s.live
  }

  ghost predicate Indexed(s: State, limbo: set<Id>) {
    && (forall h <- s.awaited :: h in s.live && IsHerder(s.store, h))
    && (forall h <- s.herds :: h in s.live && IsHerder(s.store, h))
    && (forall h <- s.live | IsHerder(s.store, h) :: HerdIndexed(s, limbo, h))
  }

  /** A waiting herder has something to wait for; a herder that has not started has only planned
      and canceled sheep. */
  ghost predicate Herding(s: State, limbo: set<Id>) {
    && (forall h <- s.live | IsHerder(s.store, h) && h !in limbo ::
          StatusOf(s.store[h]) == Waiting ==> Get(s.awaited, h, {}) != {})
    && (forall i <- s.store | s.store[i].herd in s.store && s.store[i].herd != i &&
                              Unready(s.store, s.store[i].herd) ::
          StatusOf(s.store[i]) == Planned || StatusOf(s.store[i]) == Canceled)
  }

  /** The statuses of all instances ever planned into the herd of a herder. */
  function Flock(store: Store, h: Id): map<Id, Status>
    requires h in store
  {
    map i | i in store[h].herded && i in store :: StatusOf(store[i])
  }

  /** The end of a herder that waits: all its sheep are finished, and it is judged on them. */
  ghost predicate JudgedOn(s: State, h: Id)
    requires h in s.store
  {
    && (forall i <- s.store[h].herded ::
          i in s.store && i != h && s.store[i].herd == h && Done(s.store, i))
    && (StatusOf(s.store[h]) == Canceled ==>
          !s.store[h].reported && forall i <- s.store[h].herded :: StatusOf(s.store[i]) == Canceled)
    && (StatusOf(s.store[h]) != Canceled ==>
          s.store[h].success
          == Judge(PolicyOf(s, s.store[h].task), s.store[h].reported, Flock(s.store, h)))
  }

  /** Finished herders are judged, those that do not wait on what their executor said alone. */
  ghost predicate Judged(s: State) {
    && (forall h <- s.store ::
          IsHerder(s.store, h) && PolicyOf(s, s.store[h].task) != NoWait && Done(s.store, h) ==> JudgedOn(s, h))
    && (forall h <- s.store ::
          IsHerder(s.store, h) && PolicyOf(s, s.store[h].task) == NoWait && Done(s.store, h) ==>
            s.store[h].success == s.store[h].reported)
  }

  /** The judgement of a herder only depends on itself and on the statuses of its sheep. */
  lemma JudgedFrame(s: State, t: State, h: Id)
    requires h in s.store && h in t.store && s.store[h] == t.store[h] && s.cfg == t.cfg
    requires JudgedOn(s, h)
    requires forall i <- s.store[h].herded ::
               i in t.store && t.store[i].herd == s.store[i].herd && StatusOf(t.store[i]) == StatusOf(s.store[i])
    ensures JudgedOn(t, h)
  {
    hide StatusOf, Judge;
    assert Flock(t.store, h) == Flock(s.store, h);
  }

  // ---------------------------------------------------------------------------------------------
  // Executors
  // ---------------------------------------------------------------------------------------------

  /** The running map holds exactly the running instances; no executor is at two places. */
  ghost predicate Staffed(s: State) {
    && (forall i :: i in s.busy <==> i in s.store && StatusOf(s.store[i]) == Running)
    && (forall k :: 0 <= k < |s.idle| ==> !s.idle[k].temporary && s.idle[k].number < s.made)
    && (forall i <- s.busy :: s.busy[i].number < s.made)
    && (forall j, k :: 0 <= j < k < |s.idle| ==> s.idle[j].number != s.idle[k].number)
    && (forall i <- s.busy, j <- s.busy :: i != j ==> s.busy[i].number != s.busy[j].number)
    && (forall i <- s.busy, k :: 0 <= k < |s.idle| ==> s.busy[i].number != s.idle[k].number)
  }

  /** The executors that were configured, idle or at work. */
  function Permanent(s: State): nat {
    |s.idle| + |AtWork(s)|
  }

  /** The instances that run on a permanent executor. */
  function AtWork(s: State): set<Id> {
    set i | i in s.busy && !s.busy[i].temporary
  }

  // ---------------------------------------------------------------------------------------------
  // Tallies: slots, resources, queue
  // ---------------------------------------------------------------------------------------------

  /** The part of an instance that decides what it weighs. */
  datatype Key = Key(task: TaskId, force: bool, criterion: string, target: HostId)

  function KeyOf(i: Inst): Key {
    Key(i.task, i.force, i.criterion, i.target)
  }

  function Part(i: Inst, p: Status -> bool, f: Key -> int): int {
    if p(StatusOf(i)) then f(KeyOf(i)) else 0
  }

  /** The total weight of the instances whose status is in a class. */
  ghost function Tally(store: Store, p: Status -> bool, f: Key -> int): int {
    Total(store.Keys, (i: nat) => if i in store then Part(store[i], p, f) else 0)
  }

  lemma TallyPut(store: Store, i: Id, inst: Inst, p: Status -> bool, f: Key -> int)
    ensures Tally(store[i := inst], p, f)
         == Tally(store, p, f) - (if i in store then Part(store[i], p, f) else 0) + Part(inst, p, f)
  {
    var v := (j: nat) => if j in store then Part(store[j], p, f) else 0;
    var after := store[i := inst];
    var w := (j: nat) => if j in after then Part(after[j], p, f) else 0;
    if i in store {
      assert after.Keys == store.Keys;
      TotalChange(store.Keys, v, w, i);
    } else {
      assert after.Keys == store.Keys + {i};
      TotalGrow(store.Keys, v, w, i);
    }
  }

  predicate IsQueued(s: Status) { s == Queued }

  predicate Every(s: Status) { true }

  function OfTask(t: TaskId): Key -> int {
    (k: Key) => if k.task == t then 1 else 0
  }

  function OnHost(cfg: Config, h: HostId, kind: Kind): Key -> int {
    (k: Key) => if k.target == h then Get(ResourcesOf(cfg, k.task), kind, 0) else 0
  }

  /** What forced instances need is not charged when they start, but given back when they finish. */
  function Uncharged(cfg: Config, h: HostId, kind: Kind): Key -> int {
    (k: Key) => if k.force && k.target == h then Get(ResourcesOf(cfg, k.task), kind, 0) else 0
  }

  function One(): Key -> int {
    (k: Key) => 1
  }

  /** The weight of the herders that were finished once more than they should. */
  ghost function Twice(store: Store, again: seq<Id>, f: Key -> int): int {
    if again == [] then 0
    else
      var last := again[|again|-1];
      Twice(store, again[..|again|-1], f) + if last in store then f(KeyOf(store[last])) else 0
  }

  function Used(used: map<HostId, map<Kind, int>>, h: HostId, k: Kind): int {
    Get(Get(used, h, map[]), k, 0)
  }

  function Capacity(cfg: Config, h: HostId, k: Kind): nat {
    Get(Get(cfg.hosts, h, map[]), k, 0)
  }

  ghost predicate NoForce(s: State) {
    forall i <- s.store :: !s.store[i].force
  }

  /** The running count of a task is its number of running and waiting instances, less one for
      each of its herders that was finished twice. */
  ghost predicate Slotted(s: State) {
    && (forall k :: 0 <= k < |s.again| ==> s.again[k] in s.store && Done(s.store, s.again[k]))
    && (forall t <- s.cfg.tasks ::
          Get(s.count, t, 0) + Twice(s.store, s.again, OfTask(t)) == Tally(s.store, Active, OfTask(t)))
  }

  /** What a host has in use of a resource is what its running and waiting instances need, less what
      was given back twice, and less what the forced ones that ever started there need. */
  ghost predicate Balanced(s: State, h: HostId, k: Kind) {
    Used(s.used, h, k) + Twice(s.store, s.again, OnHost(s.cfg, h, k)) + Tally(s.store, Every, Uncharged(s.cfg, h, k))
    == Tally(s.store, Active, OnHost(s.cfg, h, k))
  }

  /** An instance that has not started targets the host without a name. */
  ghost predicate Loaded(s: State) {
    forall h, k :: h != "" || NoForce(s) ==> Balanced(s, h, k)
  }

  /** Without forced instances the limits hold. */
  ghost predicate Bounded(s: State) {
    && (NoForce(s) ==>
          && (forall t <- s.cfg.tasks :: Get(s.count, t, 0) <= s.cfg.tasks[t].maxInstances)
          && (forall h, k :: Used(s.used, h, k) <= Capacity(s.cfg, h, k)))
    && Tally(s.store, IsQueued, One()) <= s.cfg.maxQueued
  }
}
