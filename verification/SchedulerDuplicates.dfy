/** When the limit on queued duplicates holds for tasks that keep the last instances. */
module SchedulerDuplicates {
  import opened TaskStatus
  import opened SchedulerModel
  import opened SchedulerInvariants
  import opened SchedulerHerds
  import opened SchedulerBooks
  import opened SchedulerSteps
  import opened SchedulerActions
  import opened SchedulerRuns
  import opened SchedulerTheorems
  import opened SchedulerQueue
  import opened SchedulerShelter
  import opened SchedulerAgain
  import opened SchedulerCancel
  import opened SchedulerAnswers
  import opened SchedulerAlike
  import opened SchedulerFindings
  import C = Conditions

  // ---------------------------------------------------------------------------------------------
  // One arriving instance
  // ---------------------------------------------------------------------------------------------

  /** The queued instance with the lowest id among those an instance competes with; 0 if there is none. */
  function Lowest(s: State, i: Id): Id {
    var order := Ascending(Rivals(s, i), s.next);
    if order == [] then 0 else order[0]
  }

  lemma LowestIs(s: State, i: Id)
    ensures var order := Ascending(Rivals(s, i), s.next); order != [] ==> Lowest(s, i) == order[0]
  {
    hide Ascending, Rivals;
  }

  /** At the limit, the instance with the lowest id is the one that goes. */
  lemma LowestGoes(s: State, i: Id, limbo: set<Id>, steady: bool)
    requires Inv(s, limbo, steady) && Guarded(s, i) && 0 < MaxQueued(s, i) && KeepLast(s, i)
    requires i in s.store && |Kin(s.store, s.store[i].task, s.store[i].criterion)| == MaxQueued(s, i)
    ensures Lowest(s, i) in Kin(s.store, s.store[i].task, s.store[i].criterion) && Lowest(s, i) != i
    ensures Surplus(Duplicates(s, i), MaxQueued(s, i), KeepLast(s, i)) == [Lowest(s, i)]
  {
    hide *;
    var order := Ascending(Rivals(s, i), s.next);
    RivalOrder(s, i, limbo, steady);
    FirstGoes(order, i, MaxQueued(s, i));
    FirstElem(order);
    LowestIs(s, i);
    PlannedIsUnready(s, i);
    PlannedIsNotKin(s, i);
  }

  lemma PlannedIsNotKin(s: State, i: Id)
    requires i in s.store && StatusOf(s.store[i]) == Planned
    ensures i !in Kin(s.store, s.store[i].task, s.store[i].criterion)
  {
  }

  lemma FirstElem(order: seq<Id>)
    ensures order != [] ==> order[0] in Elems(order)
  {
  }

  lemma FirstGoes(order: seq<Id>, i: Id, max: nat)
    requires 0 < max == |order|
    ensures Surplus(order + [i], max, true) == [order[0]]
  {
    assert (order + [i])[..1] == [order[0]];
  }

  lemma KinFacts(s: State, t: TaskId, criterion: string, k: Id)
    ensures k in Kin(s.store, t, criterion) <==>
              && k in s.store && StatusOf(s.store[k]) == Queued
              && s.store[k].task == t && s.store[k].criterion == criterion
  {
  }

  lemma QueuedIsSheltered(s: State, k: Id)
    requires k in s.store && StatusOf(s.store[k]) == Queued && NeverAsked(s.script, s.store[k].task)
    ensures Sheltered(s, k, Unasked) && Unready(s.store, k)
  {
    hide NeverAsked;
  }

  lemma GuardedIsSheltered(s: State, k: Id)
    requires k in s.store && Guarded(s, k) && NeverAsked(s.script, s.store[k].task)
    ensures Sheltered(s, k, Unasked)
  {
    hide NeverAsked, Guarded;
  }

  lemma AlwaysUnforced()
    ensures forall t :: Unforced(Unasked, t)
  {
  }

  /** Canceling an instance of a task that no action asks for leaves the other queued instances of the
      task queued, and queues none. */
  lemma OthersStayQueued(s: State, d: Id, i: Id, limbo: set<Id>, steady: bool)
    requires Inv(s, limbo, steady) && Settled(s, limbo) && Guarded(s, i) && i in s.store && d != i
    requires NeverAsked(s.script, s.store[i].task)
    requires d in Kin(s.store, s.store[i].task, s.store[i].criterion)
    ensures var kin := Kin(s.store, s.store[i].task, s.store[i].criterion);
            && Kin(Cancel(s, d).store, s.store[i].task, s.store[i].criterion)
               == (if d in Cancel(s, d).store && StatusOf(Cancel(s, d).store[d]) == Queued then kin else kin - {d})
            && i in Cancel(s, d).store && StatusOf(Cancel(s, d).store[i]) == Planned
            && Cancel(s, d).store[i].task == s.store[i].task && Cancel(s, d).store[i].criterion == s.store[i].criterion
  {
    AlwaysUnforced();
    hide *;
    var t := Cancel(s, d);
    var task, criterion := s.store[i].task, s.store[i].criterion;
    InvShape(s, limbo, steady);
    PlannedIsUnready(s, i);
    KinFacts(s, task, criterion, d);
    QueuedIsSheltered(s, d);
    GuardedIsSheltered(s, i);
    QueuedElsewhere(s, d, i, Unasked, limbo, steady);
    CancelKeeps(s, d, limbo, steady);
    CancelSpares(s, d, i, Unasked, limbo, steady);
    SparedFacts(s, t, i, Unasked);
    SameMax(s, t, {d}, i);
    forall k ensures k in Kin(t.store, task, criterion) <==>
        k in Kin(s.store, task, criterion) && (k == d ==> d in t.store && StatusOf(t.store[d]) == Queued)
    {
      KinFacts(s, task, criterion, k);
      KinFacts(t, task, criterion, k);
      LineFacts(s, task, k);
      LineFacts(t, task, k);
      if k in s.store {
        SameMax(s, t, {d}, k);
        if k != d && k in Kin(s.store, task, criterion) {
          QueuedIsSheltered(s, k);
          QueuedElsewhere(s, d, k, Unasked, limbo, steady);
          CancelSpares(s, d, k, Unasked, limbo, steady);
          SparedFacts(s, t, k, Unasked);
        }
      }
    }
  }

  lemma LineFacts(s: State, t: TaskId, k: Id)
    ensures k in Line(s.store, t) <==> k in s.store && StatusOf(s.store[k]) == Queued && s.store[k].task == t
  {
  }

  /** The one that goes is canceled: a sheep always, a herder unless it waits for sheep that its finish
      actions ask for. */
  lemma GoneExactly(s: State, d: Id, limbo: set<Id>, steady: bool)
    requires Inv(s, limbo, steady) && Settled(s, limbo) && d in s.store && StatusOf(s.store[d]) == Queued
    requires NeverAsked(s.script, s.store[d].task)
    ensures d in Cancel(s, d).store
    ensures StatusOf(Cancel(s, d).store[d]) != Queued
       <==> s.store[d].herd != d || PolicyOf(s, s.store[d].task) == NoWait || !AsksForSheep(s, s.script)
  {
    AlwaysUnforced();
    hide *;
    InvShape(s, limbo, steady);
    QueuedIsSheltered(s, d);
    CancelCases(s, d);
    if s.store[d].herd != d {
      DropSheepCalmer(s, d, false, limbo, steady);
      ReadyIsNotQueued(Cancel(s, d).store, d);
    } else {
      HerderOf(s.store, d);
      CancelFinishesExactly(s, d, Unasked, limbo, steady);
      QueuedIsNotFinished(Cancel(s, d).store, d);
    }
  }

  lemma ReadyIsNotQueued(store: Store, d: Id)
    requires d in store && !Unready(store, d)
    ensures StatusOf(store[d]) != Queued
  {
  }

  lemma QueuedIsNotFinished(store: Store, d: Id)
    requires d in store
    ensures StatusOf(store[d]) == Queued ==> !Finished(StatusOf(store[d]))
  {
  }

  /** At the limit, the lowest one is canceled before the arriving one is queued. */
  lemma EnqueueAtLimit(s: State, i: Id, limbo: set<Id>, steady: bool)
    requires Inv(s, limbo, steady) && Guarded(s, i) && 0 < MaxQueued(s, i) && KeepLast(s, i) && i in s.store
    requires !s.store[i].force && s.store[i].task in s.enabled
    requires |Kin(s.store, s.store[i].task, s.store[i].criterion)| == MaxQueued(s, i)
    ensures Enqueue(s, i) == Admit(Cancel(s, Lowest(s, i)), i)
    ensures Lowest(s, i) in Kin(s.store, s.store[i].task, s.store[i].criterion) && Lowest(s, i) != i
  {
    hide *;
    LowestGoes(s, i, limbo, steady);
    var d := Lowest(s, i);
    DataIs(s, i);
    EnqueueCases(s, i);
    assert [d][1..] == [] && i !in [d];
    CancelAllCases(s, [d]);
    CancelAllCases(Cancel(s, d), []);
  }

  /** When a task that keeps the last instances is at its limit and no action asks for the task, an
      arriving instance that is queued leaves it at its limit exactly when the one that goes is a
      sheep, or does not wait for sheep, or its finish actions ask for none. */
  lemma KeptWithinLimitExactly(s: State, i: Id, limbo: set<Id>, steady: bool)
    requires Inv(s, limbo, steady) && Settled(s, limbo) && Guarded(s, i) && i in s.store
    requires !s.store[i].force && s.store[i].task in s.enabled && 0 < MaxQueued(s, i) && KeepLast(s, i)
    requires |Kin(s.store, s.store[i].task, s.store[i].criterion)| == MaxQueued(s, i)
    requires NeverAsked(s.script, s.store[i].task)
    ensures var t := Enqueue(s, i);
            var d := Lowest(s, i);
            && d in s.store && i in t.store
            && (StatusOf(t.store[i]) == Queued ==>
                  (|Kin(t.store, s.store[i].task, s.store[i].criterion)| <= MaxQueued(s, i)
                   <==> s.store[d].herd != d || PolicyOf(s, s.store[i].task) == NoWait || !AsksForSheep(s, s.script)))
  {
    hide *;
    var d := Lowest(s, i);
    EnqueueAtLimit(s, i, limbo, steady);
    KeptAt(s, i, d, limbo, steady);
  }

  lemma KeptAt(s: State, i: Id, d: Id, limbo: set<Id>, steady: bool)
    requires Inv(s, limbo, steady) && Settled(s, limbo) && Guarded(s, i) && i in s.store && d != i
    requires d in Kin(s.store, s.store[i].task, s.store[i].criterion)
    requires |Kin(s.store, s.store[i].task, s.store[i].criterion)| == MaxQueued(s, i)
    requires NeverAsked(s.script, s.store[i].task)
    ensures var t := Admit(Cancel(s, d), i);
            && d in s.store && i in t.store
            && (StatusOf(t.store[i]) == Queued ==>
                  (|Kin(t.store, s.store[i].task, s.store[i].criterion)| <= MaxQueued(s, i)
                   <==> s.store[d].herd != d || PolicyOf(s, s.store[i].task) == NoWait || !AsksForSheep(s, s.script)))
  {
    hide *;
    var task, criterion := s.store[i].task, s.store[i].criterion;
    var u := Cancel(s, d);
    KinFacts(s, task, criterion, d);
    OthersStayQueued(s, d, i, limbo, steady);
    GoneExactly(s, d, limbo, steady);
    NotKinIfPlanned(u, i, task, criterion);
    AdmitStore(u, i);
    AdmittedKin(u, i, Admit(u, i), task, criterion);
    OneLess(Kin(s.store, task, criterion), d);
    OneMoreId(Kin(u.store, task, criterion), i);
  }

  lemma NotKinIfPlanned(s: State, i: Id, task: TaskId, criterion: string)
    requires i in s.store && StatusOf(s.store[i]) == Planned
    ensures i !in Kin(s.store, task, criterion)
  {
  }

  lemma OneLess(a: set<Id>, d: Id)
    requires d in a
    ensures |a - {d}| == |a| - 1
  {
  }

  lemma OneMoreId(a: set<Id>, i: Id)
    requires i !in a
    ensures |a + {i}| == |a| + 1
  {
  }

  lemma AdmittedKin(s: State, i: Id, t: State, task: TaskId, criterion: string)
    requires i in s.store && StatusOf(s.store[i]) == Planned
    requires s.store[i].task == task && s.store[i].criterion == criterion
    requires t.store == s.store || t.store == s.store[i := s.store[i].(queued := true)]
    ensures i in t.store
    ensures StatusOf(t.store[i]) == Queued ==> Kin(t.store, task, criterion) == Kin(s.store, task, criterion) + {i}
  {
  }

  // ---------------------------------------------------------------------------------------------
  // All runs of a configuration
  // ---------------------------------------------------------------------------------------------

  /** The configuration stays as it is. */
  predicate Fixed(events: seq<Event>) {
    forall e <- events :: !e.ReloadEvent?
  }

  lemma {:induction false} FixedIsSteady(s: State, events: seq<Event>)
    requires Inv(s, {}, false) && Possible(s, events) && Fixed(events)
    ensures Steady(s, events) && After(s, events).cfg == s.cfg
    decreases |events|
  {
    if events != [] {
      var t := Apply(s, events[0]);
      assert events[0] in events && forall e <- events[1..] :: e in events;
      assert Possible(t, events[1..]) && Enabled(s, events[0]);
      assert After(s, events) == After(t, events[1..]);
      EventConfig(s, events[0]);
      hide Inv, Continues, Apply, After;
      ApplyKeeps(s, events[0], false);
      FixedIsSteady(t, events[1..]);
    }
  }

  /** In every run of a configuration without forced instances, the task is within its limit. */
  ghost predicate WithinLimitAlways(cfg: Config, up: set<HostId>, order: map<string, seq<HostId>>, task: TaskId)
    requires task in cfg.tasks
  {
    forall events: seq<Event>, criterion |
      Possible(Initial(cfg, up, order), events) && Fixed(events) && NoForce(After(Initial(cfg, up, order), events)) ::
      |Kin(After(Initial(cfg, up, order), events).store, task, criterion)| <= cfg.tasks[task].maxQueued
  }

  lemma HoldsInRun(cfg: Config, up: set<HostId>, order: map<string, seq<HostId>>, events: seq<Event>,
                   task: TaskId, criterion: string)
    requires Possible(Initial(cfg, up, order), events) && Fixed(events)
    requires NoForce(After(Initial(cfg, up, order), events))
    requires task in cfg.tasks && 0 < cfg.tasks[task].maxQueued
    requires !cfg.tasks[task].keepLast || cfg.maxQueued <= cfg.tasks[task].maxQueued
    ensures |Kin(After(Initial(cfg, up, order), events).store, task, criterion)| <= cfg.tasks[task].maxQueued
  {
    var s := Initial(cfg, up, order);
    var t := After(s, events);
    assert s.cfg == cfg;
    assert cfg.tasks[task].keepLast <==> KeepsLast(cfg, task);
    assert forall e <- events :: !e.ReloadEvent?;
    InitialInv(cfg, up, order, false);
    hide Inv, Initial, After, Possible, NoForce, Kin, KeepsLast;
    FixedIsSteady(s, events);
    if !cfg.tasks[task].keepLast {
      DuplicatesAreBounded(cfg, up, order, events, task, criterion);
    } else {
      assert Reached(t, true);
      hide *;
      QueueIsBounded(t);
      ReachedInv(t, true);
      KinAreFew(t, task, criterion, {});
    }
  }


  // ---------------------------------------------------------------------------------------------
  // A run that goes beyond the limit
  // ---------------------------------------------------------------------------------------------

  /** A lone instance of a task, queued, planned or canceled. */
  predicate LoneAt(inst: Inst, i: Id, task: TaskId, queued: set<Id>, planned: set<Id>) {
    && inst.herd == i && inst.task == task && inst.criterion == "" && !inst.force && !inst.started
    && StatusOf(inst) == if i in queued then Queued else if i in planned then Planned else Canceled
  }

  /** All instances are lone ones of one task: some are queued, some planned, the others canceled. */
  ghost predicate Simple(s: State, cfg: Config, task: TaskId, queued: set<Id>, planned: set<Id>) {
    && s.cfg == cfg && task in cfg.tasks && task in s.enabled && 0 < s.next && s.awaited == map[] && s.herds == map[]
    && s.live == queued + planned && queued + planned <= s.store.Keys && queued !! planned
    && (forall i <- s.store :: 0 < i < s.next && LoneAt(s.store[i], i, task, queued, planned))
  }

  /** One instance changes. */
  lemma SimplePut(s: State, cfg: Config, task: TaskId, queued: set<Id>, planned: set<Id>, i: Id, inst: Inst,
                  q: set<Id>, p: set<Id>, t: State)
    requires Simple(s, cfg, task, queued, planned)
    requires t == s.(store := s.store[i := inst], live := t.live, next := t.next, awaited := map[], herds := map[],
                     script := t.script, strayed := t.strayed, again := t.again)
    requires 0 < i < t.next && s.next <= t.next && LoneAt(inst, i, task, q, p)
    requires q - {i} == queued - {i} && p - {i} == planned - {i} && q !! p && t.live == q + p
    ensures Simple(t, cfg, task, q, p) && s.store.Keys <= t.store.Keys
  {
    hide StatusOf;
    forall j <- t.store ensures 0 < j < t.next && LoneAt(t.store[j], j, task, q, p) {
      if j != i {
        assert 0 < j < s.next && LoneAt(s.store[j], j, task, queued, planned);
        assert j in q - {i} <==> j in queued - {i};
        assert j in p - {i} <==> j in planned - {i};
      }
    }
    assert queued <= s.store.Keys && planned <= s.store.Keys;
    forall j <- q + p ensures j in t.store {
      if j != i {
        assert j in q - {i} || j in p - {i};
      }
    }
  }

  lemma SimpleAside(s: State, cfg: Config, task: TaskId, queued: set<Id>, planned: set<Id>, t: State)
    requires Simple(s, cfg, task, queued, planned)
    requires t == s.(script := t.script, strayed := t.strayed)
    ensures Simple(t, cfg, task, queued, planned)
  {
    hide StatusOf;
  }

  lemma SimpleInsert(s: State, cfg: Config, task: TaskId, queued: set<Id>, planned: set<Id>, parent: Id)
    requires Simple(s, cfg, task, queued, planned)
    ensures var t := Insert(s, Asked(task, true), 0, parent);
            && Simple(t, cfg, task, queued, planned + {s.next}) && t.next == s.next + 1 && s.next !in queued + planned
            && s.store.Keys <= t.store.Keys && s.next in t.store && t.script == s.script
  {
    var inst := NewInst(s.next, Asked(task, true), 0, false, parent);
    var t := Insert(s, Asked(task, true), 0, parent);
    SimpleLive(s, cfg, task, queued, planned);
    LoneInsert(s, task, parent);
    assert LoneAt(inst, s.next, task, queued, planned + {s.next}) by { LoneNew(s, task, parent); }
    hide *;
    assert s.next !in queued && s.next !in planned;
    assert queued + planned + {s.next} == queued + (planned + {s.next});
    assert queued !! planned && s.awaited == map[] && s.herds == map[] by {
      SimpleKnown(s, cfg, task, queued, planned);
    }
    SimplePut(s, cfg, task, queued, planned, s.next, inst, queued, planned + {s.next}, t);
  }

  lemma SimpleLive(s: State, cfg: Config, task: TaskId, queued: set<Id>, planned: set<Id>)
    requires Simple(s, cfg, task, queued, planned)
    ensures forall i <- queued + planned :: i in s.store && 0 < i < s.next
    ensures 0 !in s.live && s.next !in s.store && 0 < s.next
  {
    hide LoneAt;
  }

  lemma LoneInsert(s: State, task: TaskId, parent: Id)
    requires 0 !in s.live
    ensures Insert(s, Asked(task, true), 0, parent)
         == s.(store := s.store[s.next := NewInst(s.next, Asked(task, true), 0, false, parent)],
               live := s.live + {s.next}, next := s.next + 1)
  {
    hide NewInst;
  }

  lemma LoneNew(s: State, task: TaskId, parent: Id)
    requires 0 < s.next
    ensures var inst := NewInst(s.next, Asked(task, true), 0, false, parent);
            && StatusOf(inst) == Planned && inst.herd == s.next && inst.task == task && inst.criterion == ""
            && !inst.force && !inst.started
  {
  }

  lemma SimpleQueue(s: State, cfg: Config, task: TaskId, queued: set<Id>, planned: set<Id>)
    requires Simple(s, cfg, task, queued, planned)
    ensures QueueSize(s) == |queued|
  {
    hide StatusOf;
    forall j ensures j in queued <==> j in s.live && j in s.store && StatusAt(s, j) == Queued {
      if j in s.store {
        assert LoneAt(s.store[j], j, task, queued, planned);
      }
    }
    assert (set j | j in s.live && j in s.store && StatusAt(s, j) == Queued) == queued;
  }

  lemma AdmitIs(s: State, i: Id)
    requires QueueSize(s) < s.cfg.maxQueued && i in s.store
    ensures Admit(s, i) == s.(store := s.store[i := s.store[i].(queued := true)], live := s.live + {i})
  {
    hide QueueSize;
  }

  lemma LoneQueued(inst: Inst, i: Id, task: TaskId, queued: set<Id>, planned: set<Id>)
    requires LoneAt(inst, i, task, queued, planned) && i in planned && i !in queued
    ensures LoneAt(inst.(queued := true), i, task, queued + {i}, planned - {i})
  {
  }

  lemma LoneCanceled(inst: Inst, i: Id, task: TaskId, queued: set<Id>, planned: set<Id>)
    requires LoneAt(inst, i, task, queued, planned) && i !in planned
    ensures LoneAt(inst.(finished := true, success := false, started := false, stopped := true), i, task,
                   queued - {i}, planned)
  {
  }

  lemma SimpleAdmit(s: State, cfg: Config, task: TaskId, queued: set<Id>, planned: set<Id>, i: Id)
    requires Simple(s, cfg, task, queued, planned) && i in planned && |queued| < cfg.maxQueued
    ensures Simple(Admit(s, i), cfg, task, queued + {i}, planned - {i})
    ensures Admit(s, i).next == s.next && Admit(s, i).script == s.script
    ensures s.store.Keys <= Admit(s, i).store.Keys
  {
    SimpleQueue(s, cfg, task, queued, planned);
    SimpleKnown(s, cfg, task, queued, planned);
    SimpleLive(s, cfg, task, queued, planned);
    hide *;
    assert i in queued + planned;
    AdmitIs(s, i);
    SimpleFacts(s, cfg, task, queued, planned, i);
    LoneQueued(s.store[i], i, task, queued, planned);
    assert queued + planned + {i} == queued + {i} + (planned - {i});
    SimplePut(s, cfg, task, queued, planned, i, s.store[i].(queued := true), queued + {i}, planned - {i}, Admit(s, i));
  }

  lemma SimpleCancelHerd(s: State, cfg: Config, task: TaskId, queued: set<Id>, planned: set<Id>, h: Id)
    requires Simple(s, cfg, task, queued, planned)
    ensures CancelHerd(s, h) == s
  {
    hide LoneAt;
    assert Sheep(s, h) == {};
    NoneAscending(Sheep(s, h), s.next);
  }

  lemma NoneAscending(ids: set<Id>, below: nat)
    requires ids == {}
    ensures Ascending(ids, below) == []
  {
    if below > 0 {
      NoneAscending(ids, below - 1);
    }
  }

  lemma FinishIs(s: State, h: Id)
    requires h in s.store && s.store[h].herd == h && !s.store[h].started && s.herds == map[] && s.awaited == map[]
    ensures FinishHerder(s, h, false)
         == s.(store := s.store[h := s.store[h].(finished := true, success := false, started := false,
                                                 stopped := true)],
               live := s.live - {h}, awaited := map[], herds := map[])
  {
    var c := Close(s, h, false);
    assert Sheep(c, h) == {};
    assert c.awaited - {h} == map[] && c.herds - {h} == map[];
    var none: set<Id> := {};
    assert s.live - none == s.live;
  }

  lemma SimpleFinish(s: State, cfg: Config, task: TaskId, queued: set<Id>, planned: set<Id>, h: Id)
    requires Simple(s, cfg, task, queued, planned) && h in s.store && h !in planned
    ensures Simple(FinishHerder(s, h, false), cfg, task, queued - {h}, planned)
    ensures FinishHerder(s, h, false).next == s.next && s.store.Keys <= FinishHerder(s, h, false).store.Keys
  {
    SimpleKnown(s, cfg, task, queued, planned);
    SimpleFacts(s, cfg, task, queued, planned, h);
    hide *;
    FinishIs(s, h);
    var inst := s.store[h].(finished := true, success := false, started := false, stopped := true);
    LoneCanceled(s.store[h], h, task, queued, planned);
    assert queued + planned - {h} == queued - {h} + planned;
    SimplePut(s, cfg, task, queued, planned, h, inst, queued - {h}, planned, FinishHerder(s, h, false));
  }

  lemma FirstIsLeast(ids: set<Id>, below: nat, least: Id)
    requires least in ids && forall i <- ids :: least <= i < below
    ensures Ascending(ids, below) != [] && Ascending(ids, below)[0] == least
  {
    var order := Ascending(ids, below);
    assert least in order;
    var k :| 0 <= k < |order| && order[k] == least;
    assert order[0] in ids;
  }

  /** Those that an arriving instance displaces, below and at the limit. */
  lemma SimpleSurplus(s: State, cfg: Config, task: TaskId, queued: set<Id>, planned: set<Id>, i: Id)
    requires Simple(s, cfg, task, queued, planned) && i in planned && 0 < cfg.tasks[task].maxQueued
    requires cfg.tasks[task].keepLast && |queued| <= cfg.tasks[task].maxQueued
    ensures MaxQueued(s, i) == cfg.tasks[task].maxQueued && KeepLast(s, i)
    ensures Surplus(Duplicates(s, i), MaxQueued(s, i), KeepLast(s, i))
         == if |queued| < cfg.tasks[task].maxQueued then [] else [Ascending(queued, s.next)[0]]
  {
    assert Rivals(s, i) == queued;
    assert Duplicates(s, i) == Ascending(queued, s.next) + [i];
    assert MaxQueued(s, i) == cfg.tasks[task].maxQueued && KeepLast(s, i);
    assert forall j <- queued :: j < s.next;
    var order := Ascending(queued, s.next);
    assert Elems(order) == queued;
    hide *;
    DistinctElems(order);
    if |queued| == MaxQueued(s, i) {
      FirstGoes(order, i, MaxQueued(s, i));
    } else {
      NobodyGoes(order, i, MaxQueued(s, i), true);
    }
  }

  lemma SimpleFacts(s: State, cfg: Config, task: TaskId, queued: set<Id>, planned: set<Id>, i: Id)
    requires Simple(s, cfg, task, queued, planned) && i in s.store
    ensures LoneAt(s.store[i], i, task, queued, planned) && 0 < i < s.next
    ensures Data(s, i) == s.store[i] && !Data(s, i).force && Data(s, i).task in s.enabled && s.store[i].herd == i
    ensures StatusOf(s.store[i]) == if i in queued then Queued else if i in planned then Planned else Canceled
    ensures !s.store[i].started && IsHerder(s.store, i) && s.store[i].task == task && s.cfg == cfg
    ensures i in queued ==> Unready(s.store, i)
    ensures Get(s.awaited, i, {}) == {}
  {
    hide StatusOf;
  }

  lemma SimpleKnown(s: State, cfg: Config, task: TaskId, queued: set<Id>, planned: set<Id>)
    requires Simple(s, cfg, task, queued, planned)
    ensures task in s.cfg.tasks && task in s.enabled && 0 !in s.live && s.cfg == cfg
    ensures s.live == queued + planned && s.live <= s.store.Keys && queued !! planned
    ensures s.awaited == map[] && s.herds == map[] && 0 < s.next
  {
    hide LoneAt;
  }

  /** Below the limit, an arriving instance displaces nobody; at the limit, the lowest one. */
  lemma Arrives(s: State, cfg: Config, task: TaskId, queued: set<Id>, planned: set<Id>, i: Id, d: Id)
    requires Simple(s, cfg, task, queued, planned) && i in planned && 0 < cfg.tasks[task].maxQueued
    requires cfg.tasks[task].keepLast && |queued| <= cfg.tasks[task].maxQueued
    requires |queued| == cfg.tasks[task].maxQueued ==> d in queued && forall j <- queued :: d <= j
    ensures Enqueue(s, i) == if |queued| < cfg.tasks[task].maxQueued then Admit(s, i) else Admit(Cancel(s, d), i)
  {
    hide *;
    SimpleKnown(s, cfg, task, queued, planned);
    SimpleFacts(s, cfg, task, queued, planned, i);
    SimpleSurplus(s, cfg, task, queued, planned, i);
    EnqueueCases(s, i);
    if |queued| < cfg.tasks[task].maxQueued {
      CancelAllCases(s, []);
    } else {
      assert queued <= s.store.Keys;
      forall j <- queued ensures d <= j < s.next {
        SimpleFacts(s, cfg, task, queued, planned, j);
      }
      FirstIsLeast(queued, s.next, d);
      SimpleFacts(s, cfg, task, queued, planned, d);
      assert [d][1..] == [] && i !in [d];
      CancelAllCases(s, [d]);
      CancelAllCases(Cancel(s, d), []);
    }
  }

  lemma LonePlan(s: State, cfg: Config, task: TaskId, queued: set<Id>, planned: set<Id>, parent: Id)
    requires Simple(s, cfg, task, queued, planned)
    ensures Plan(s, Asked(task, true), 0, parent)
         == Enqueue(Trigger(Insert(s, Asked(task, true), 0, parent), s.next), s.next)
  {
    hide *;
    SimpleKnown(s, cfg, task, queued, planned);
    PlanCases(s, Asked(task, true), 0, parent);
    LoneTask(task);
  }

  lemma PlanIs(s: State, req: Request, script: seq<seq<Request>>)
    ensures Apply(s, PlanEvent(req, 0, script)) == Plan(s.(script := script), req, 0, 0)
  {
    hide Plan;
  }

  lemma LoneTask(task: TaskId)
    ensures Asked(task, true).task == task
  {
  }

  /** Below the limit, one more is queued. */
  lemma OneMoreQueued(s: State, cfg: Config, task: TaskId, queued: set<Id>)
    requires Simple(s, cfg, task, queued, {}) && 0 < cfg.tasks[task].maxQueued && cfg.tasks[task].keepLast
    requires |queued| < cfg.tasks[task].maxQueued < cfg.maxQueued
    ensures var t := Apply(s, PlanEvent(Asked(task, true), 0, []));
            Simple(t, cfg, task, queued + {s.next}, {}) && t.next == s.next + 1
  {
    hide *;
    var u := s.(script := []);
    PlanIs(s, Asked(task, true), []);
    SimpleAside(s, cfg, task, queued, {}, u);
    var i := u.next;
    var t := Insert(u, Asked(task, true), 0, 0);
    LonePlan(u, cfg, task, queued, {}, 0);
    SimpleInsert(u, cfg, task, queued, {}, 0);
    assert {} + {i} == {i} && {i} - {i} == {};
    TriggerCases(t, i);
    Arrives(t, cfg, task, queued, {i}, i, i);
    SimpleAdmit(t, cfg, task, queued, {i}, i);
  }

  /** The queued instance with the lowest id is canceled; its actions plan nothing. */
  lemma SimpleCancel(s: State, cfg: Config, task: TaskId, queued: set<Id>, planned: set<Id>, d: Id)
    requires Simple(s, cfg, task, queued, planned) && d in queued && s.script == []
    ensures Simple(Cancel(s, d), cfg, task, queued - {d}, planned)
    ensures Cancel(s, d).next == s.next && Cancel(s, d).script == [] && s.store.Keys <= Cancel(s, d).store.Keys
  {
    hide *;
    SimpleKnown(s, cfg, task, queued, planned);
    SimpleFacts(s, cfg, task, queued, planned, d);
    SimpleCancelHerd(s, cfg, task, queued, planned, d);
    CancelCases(s, d);
    NothingToWatch(s, d);
    TriggerCases(s, d);
    StopHerderCases(s, d, false);
    assert d !in planned;
    SimpleFinish(s, cfg, task, queued, planned, d);
  }

  lemma NothingToWatch(s: State, d: Id)
    requires s.script == []
    ensures Watch(s, d) == s
  {
  }

  /** An instance that arrives at the limit displaces the lowest one, whose actions plan nothing. */
  lemma OneForAnother(s: State, cfg: Config, task: TaskId, queued: set<Id>, planned: set<Id>, d: Id, parent: Id)
    requires Simple(s, cfg, task, queued, planned) && d in queued && (forall i <- queued :: d <= i)
    requires s.script == [] && 0 < cfg.tasks[task].maxQueued && cfg.tasks[task].keepLast
    requires |queued| == cfg.tasks[task].maxQueued < cfg.maxQueued
    ensures s.next !in queued + planned
    ensures Simple(Plan(s, Asked(task, true), 0, parent), cfg, task, queued - {d} + {s.next}, planned)
    ensures s.store.Keys <= Plan(s, Asked(task, true), 0, parent).store.Keys
  {
    hide *;
    var b := s.next;
    var t := Insert(s, Asked(task, true), 0, parent);
    LonePlan(s, cfg, task, queued, planned, parent);
    SimpleInsert(s, cfg, task, queued, planned, parent);
    TriggerCases(t, b);
    Arrives(t, cfg, task, queued, planned + {b}, b, d);
    SimpleCancel(t, cfg, task, queued, planned + {b}, d);
    OneLess(queued, d);
    SimpleAdmit(Cancel(t, d), cfg, task, queued - {d}, planned + {b}, b);
    assert planned + {b} - {b} == planned;
  }

  /** The canceled instance plans another one of its task, which displaces it already. */
  lemma SimpleCancelPlans(s: State, cfg: Config, task: TaskId, queued: set<Id>, planned: set<Id>, d: Id)
    requires Simple(s, cfg, task, queued, planned) && d in queued && (forall i <- queued :: d <= i)
    requires s.script == [[Asked(task, true)]] && 0 < cfg.tasks[task].maxQueued && cfg.tasks[task].keepLast
    requires |queued| == cfg.tasks[task].maxQueued < cfg.maxQueued
    ensures Simple(Cancel(s, d), cfg, task, queued - {d} + {s.next}, planned)
    ensures s.next !in queued + planned
  {
    hide *;
    SimpleKnown(s, cfg, task, queued, planned);
    SimpleFacts(s, cfg, task, queued, planned, d);
    SimpleCancelHerd(s, cfg, task, queued, planned, d);
    CancelCases(s, d);
    var w := Watch(s, d);
    var x := w.(script := []);
    WatchOnlyStrays(s, d);
    SimpleAside(s, cfg, task, queued, planned, x);
    OneForAnother(x, cfg, task, queued, planned, d, d);
    LoneTrigger(w, task, d);
    var v := Plan(x, Asked(task, true), 0, d);
    var q := queued - {d} + {s.next};
    StopHerderCases(s, d, false);
    SimpleKnown(v, cfg, task, q, planned);
    SimpleFacts(v, cfg, task, q, planned, d);
    SimpleFinish(v, cfg, task, q, planned, d);
    assert q - {d} == q;
  }

  lemma LoneTrigger(s: State, task: TaskId, d: Id)
    requires s.script == [[Asked(task, true)]]
    ensures Trigger(s, d) == Plan(s.(script := []), Asked(task, true), 0, d)
  {
    hide *;
    var x := s.(script := []);
    TriggerCases(s, d);
    assert [[Asked(task, true)]][1..] == [] && [Asked(task, true)][1..] == [];
    PlanAllCases(x, [Asked(task, true)], d);
    assert HerdFor(x, Asked(task, true), d) == 0 by { LoneHerd(x, task, d); }
    PlanAllCases(Plan(x, Asked(task, true), 0, d), [], d);
  }

  lemma WatchOnlyStrays(s: State, d: Id)
    ensures Watch(s, d) == s.(strayed := Watch(s, d).strayed)
  {
    hide Data;
  }

  lemma LoneHerd(s: State, task: TaskId, d: Id)
    ensures HerdFor(s, Asked(task, true), d) == 0
  {
  }

  /** At the limit, one more instance arrives; the one that goes plans another on its way out: both are
      queued. */
  lemma OneTooMany(s: State, cfg: Config, task: TaskId, queued: set<Id>, d: Id) returns (more: set<Id>)
    requires Simple(s, cfg, task, queued, {}) && d in queued && (forall i <- queued :: d <= i)
    requires 0 < cfg.tasks[task].maxQueued && cfg.tasks[task].keepLast
    requires |queued| == cfg.tasks[task].maxQueued < cfg.maxQueued
    ensures Simple(Apply(s, PlanEvent(Asked(task, true), 0, [[], [Asked(task, true)]])), cfg, task, more, {})
    ensures |more| == cfg.tasks[task].maxQueued + 1
  {
    hide *;
    var u := s.(script := [[], [Asked(task, true)]]);
    PlanIs(s, Asked(task, true), [[], [Asked(task, true)]]);
    assert u.script[0] == [] && u.script[1..] == [[Asked(task, true)]];
    SimpleAside(s, cfg, task, queued, {}, u);
    SimpleInsert(u, cfg, task, queued, {}, 0);
    var a := u.next;
    LonePlan(u, cfg, task, queued, {}, 0);
    assert {} + {a} == {a};
    assert {a} - {a} == {};
    var i := Insert(u, Asked(task, true), 0, 0);
    var t := i.(script := [[Asked(task, true)]]);
    SimpleAside(i, cfg, task, queued, {a}, t);
    TriggerCases(i, a);
    PlanAllCases(t, [], a);
    Arrives(t, cfg, task, queued, {a}, a, d);
    SimpleCancelPlans(t, cfg, task, queued, {a}, d);
    OneLess(queued, d);
    OneMoreId(queued - {d}, t.next);
    OneMoreId(queued - {d} + {t.next}, a);
    SimpleAdmit(Cancel(t, d), cfg, task, queued - {d} + {t.next}, {a}, a);
    more := queued - {d} + {t.next} + {a};
  }

  lemma {:induction false} PossibleSnoc(s: State, events: seq<Event>, e: Event)
    requires Possible(s, events) && Enabled(After(s, events), e)
    ensures Possible(s, events + [e]) && After(s, events + [e]) == Apply(After(s, events), e)
    decreases |events|
  {
    if events == [] {
      assert [] + [e] == [e] && [e][1..] == [];
    } else {
      var t := Apply(s, events[0]);
      assert Possible(t, events[1..]) && After(s, events) == After(t, events[1..]);
      assert (events + [e])[0] == events[0] && (events + [e])[1..] == events[1..] + [e];
      PossibleSnoc(t, events[1..], e);
    }
    hide Apply;
  }

  lemma PlanIsEnabled(s: State, task: TaskId, script: seq<seq<Request>>)
    ensures Enabled(s, PlanEvent(Asked(task, true), 0, script))
  {
  }

  lemma PlanEventAlike(s: State, req: Request, script: seq<seq<Request>>, act: Answers)
    requires PlanAlike(s.(script := script), req, 0, 0, act)
    ensures EventAlike(s, PlanEvent(req, 0, script), act)
  {
    hide PlanAlike;
  }

  lemma PlanIsAlike(s: State, req: Request, herd: Id, parent: Id, act: Answers)
    requires Answered(Insert(s, req, herd, parent), s.next, act.onPlan(req.task), act)
    requires !(herd in s.live && herd in s.store) ==>
               EnqueueAlike(Trigger(Insert(s, req, herd, parent), s.next), s.next, act)
    ensures PlanAlike(s, req, herd, parent, act)
  {
    hide Answered, EnqueueAlike, Insert, Trigger, Known;
  }

  lemma EnqueueIsAlike(s: State, i: Id, act: Answers)
    requires Data(s, i).task in s.enabled
    requires CancelAllAlike(s, Surplus(Duplicates(s, i), MaxQueued(s, i), KeepLast(s, i)), act)
    ensures EnqueueAlike(s, i, act)
  {
    hide CancelAllAlike, Surplus, Duplicates, MaxQueued, KeepLast, Data;
  }

  lemma NobodyAlike(s: State, act: Answers)
    ensures CancelAllAlike(s, [], act)
  {
  }

  lemma NoAnswer(s: State, i: Id, act: Answers)
    requires s.script == []
    ensures Answered(s, i, [], act)
  {
  }

  lemma OneMoreAlike(s: State, cfg: Config, task: TaskId, queued: set<Id>, act: Answers)
    requires Simple(s, cfg, task, queued, {}) && 0 < cfg.tasks[task].maxQueued && cfg.tasks[task].keepLast
    requires |queued| < cfg.tasks[task].maxQueued && act.onPlan(task) == []
    ensures EventAlike(s, PlanEvent(Asked(task, true), 0, []), act)
  {
    hide *;
    var u := s.(script := []);
    SimpleAside(s, cfg, task, queued, {}, u);
    var i := u.next;
    var t := Insert(u, Asked(task, true), 0, 0);
    LoneTask(task);
    SimpleInsert(u, cfg, task, queued, {}, 0);
    assert {} + {i} == {i};
    TriggerCases(t, i);
    SimpleFacts(t, cfg, task, queued, {i}, i);
    SimpleSurplus(t, cfg, task, queued, {i}, i);
    NobodyAlike(t, act);
    EnqueueIsAlike(t, i, act);
    NoAnswer(t, i, act);
    PlanIsAlike(u, Asked(task, true), 0, 0, act);
    PlanEventAlike(s, Asked(task, true), [], act);
  }

  /** As many instances are queued as one likes, up to the limit. */
  lemma {:induction false} FillQueue(cfg: Config, up: set<HostId>, order: map<string, seq<HostId>>, task: TaskId,
                                     k: nat, act: Answers)
      returns (events: seq<Event>, queued: set<Id>)
    requires task in cfg.tasks && 0 < cfg.tasks[task].maxQueued && cfg.tasks[task].keepLast
    requires k <= cfg.tasks[task].maxQueued < cfg.maxQueued && act.onPlan(task) == []
    ensures Possible(Initial(cfg, up, order), events) && Fixed(events)
    ensures AlikeTo(Initial(cfg, up, order), events, act)
    ensures Simple(After(Initial(cfg, up, order), events), cfg, task, queued, {})
    ensures |queued| == k && (0 < k ==> 1 in queued) && After(Initial(cfg, up, order), events).next == k + 1
  {
    var s := Initial(cfg, up, order);
    if k == 0 {
      events, queued := [], {};
      var none: set<Id> := {};
      assert none + none == none;
    } else {
      hide *;
      var before, those := FillQueue(cfg, up, order, task, k - 1, act);
      var t := After(s, before);
      var e := PlanEvent(Asked(task, true), 0, []);
      PlanIsEnabled(t, task, []);
      OneMoreAlike(t, cfg, task, those, act);
      AlikeSnoc(s, before, e, act);
      OneMoreQueued(t, cfg, task, those);
      SimpleNext(t, cfg, task, those);
      OneMoreId(those, t.next);
      events, queued := before + [e], those + {t.next};
      StillFixed(before, e);
    }
  }

  lemma StillFixed(events: seq<Event>, e: Event)
    requires Fixed(events) && !e.ReloadEvent?
    ensures Fixed(events + [e])
  {
  }

  lemma SimpleNext(s: State, cfg: Config, task: TaskId, queued: set<Id>)
    requires Simple(s, cfg, task, queued, {})
    ensures s.next !in queued && forall i <- queued :: 1 <= i
  {
    hide StatusOf;
  }

  lemma SimpleKin(s: State, cfg: Config, task: TaskId, queued: set<Id>)
    requires Simple(s, cfg, task, queued, {})
    ensures Kin(s.store, task, "") == queued && NoForce(s)
  {
    hide StatusOf;
  }

  /** A run in which more instances are queued than the task allows, whatever its policy: the finish
      actions of the instance that goes ask for another one of its task, which makes it go again, and
      then for nothing. So they do when an expression in them, such as that of the task to plan, comes to
      another value the second time; otherwise they would ask for one more without end. */
  lemma BeyondLimitByChange(cfg: Config, up: set<HostId>, order: map<string, seq<HostId>>, task: TaskId)
      returns (events: seq<Event>)
    requires task in cfg.tasks && 0 < cfg.tasks[task].maxQueued < cfg.maxQueued && cfg.tasks[task].keepLast
    ensures Possible(Initial(cfg, up, order), events) && Fixed(events)
    ensures NoForce(After(Initial(cfg, up, order), events))
    ensures |Kin(After(Initial(cfg, up, order), events).store, task, "")| > cfg.tasks[task].maxQueued
  {
    var act := Answers(_ => [], _ => []);
    hide *;
    var s := Initial(cfg, up, order);
    var before, queued := FillQueue(cfg, up, order, task, cfg.tasks[task].maxQueued, act);
    var t := After(s, before);
    var e := PlanEvent(Asked(task, true), 0, [[], [Asked(task, true)]]);
    PlanIsEnabled(t, task, [[], [Asked(task, true)]]);
    PossibleSnoc(s, before, e);
    SimpleNext(t, cfg, task, queued);
    var more := OneTooMany(t, cfg, task, queued, 1);
    SimpleKin(Apply(t, e), cfg, task, more);
    events := before + [e];
    StillFixed(before, e);
  }

  /** Whatever the actions of an instance ask for when they are triggered again within an event: a task
      that limits its queued instances is within its limit in all runs of a configuration without forced
      instances if and only if it does not keep the last ones, or its limit is no lower than that on all
      queued instances. */
  lemma WithinLimitWhateverAnswers(cfg: Config, up: set<HostId>, order: map<string, seq<HostId>>, task: TaskId)
    requires task in cfg.tasks && 0 < cfg.tasks[task].maxQueued
    ensures WithinLimitAlways(cfg, up, order, task)
       <==> !cfg.tasks[task].keepLast || cfg.maxQueued <= cfg.tasks[task].maxQueued
  {
    if !cfg.tasks[task].keepLast || cfg.maxQueued <= cfg.tasks[task].maxQueued {
      hide Possible, After, Initial, NoForce, Kin, Fixed;
      forall events: seq<Event>, criterion |
        Possible(Initial(cfg, up, order), events) && Fixed(events) && NoForce(After(Initial(cfg, up, order), events))
        ensures |Kin(After(Initial(cfg, up, order), events).store, task, criterion)| <= cfg.tasks[task].maxQueued
      {
        HoldsInRun(cfg, up, order, events, task, criterion);
      }
    } else {
      hide Possible, After, Initial, NoForce, Kin, Fixed;
      var events := BeyondLimitByChange(cfg, up, order, task);
      assert |Kin(After(Initial(cfg, up, order), events).store, task, "")| > cfg.tasks[task].maxQueued;
    }
  }
}
