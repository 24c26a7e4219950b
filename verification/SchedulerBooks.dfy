/** Executors, slots, resources and queue of the scheduler, one elementary step at a time. */
module SchedulerBooks {
  import opened TaskStatus
  import opened Totals
  import opened SchedulerModel
  import opened SchedulerInvariants
  import opened SchedulerHerds

  /** In a steady run, one that never changes the configuration for the worse, the accounts are
      right as well. */
  ghost predicate Books(s: State, steady: bool) {
    Staffed(s) && (steady ==> Slotted(s) && Loaded(s) && Bounded(s))
  }

  ghost predicate SameBooks(s: State, t: State) {
    && t.store == s.store && t.busy == s.busy && t.idle == s.idle && t.made == s.made
    && t.count == s.count && t.used == s.used && t.again == s.again && t.cfg == s.cfg
  }

  lemma SameBooksKeeps(s: State, t: State, steady: bool)
    requires Books(s, steady) && SameBooks(s, t)
    ensures Books(t, steady)
  {
    if steady {
      SameAccounts(s, t);
    }
    hide StatusOf, Slotted, Loaded, Bounded;
  }

  // ---------------------------------------------------------------------------------------------
  // One instance is rewritten, the pool and the accounts being unchanged
  // ---------------------------------------------------------------------------------------------

  lemma TwicePut(store: Store, i: Id, inst: Inst, again: seq<Id>, f: Key -> int)
    requires i in again ==> i in store && KeyOf(inst) == KeyOf(store[i])
    requires forall k :: 0 <= k < |again| ==> again[k] in store
    ensures Twice(store[i := inst], again, f) == Twice(store, again, f)
  {
    if again != [] {
      TwicePut(store, i, inst, again[..|again|-1], f);
    }
  }

  /** The data of an instance with the same key, that was not running and still is not. */
  ghost predicate Quiet(s: State, t: State, i: Id, inst: Inst) {
    && i in s.store && t.store == s.store[i := inst] && KeyOf(inst) == KeyOf(s.store[i])
    && t.busy == s.busy && t.idle == s.idle && t.made == s.made
    && t.count == s.count && t.used == s.used && t.again == s.again && t.cfg == s.cfg
    && (Done(s.store, i) ==> Finished(StatusOf(inst)))
  }

  lemma QuietStaffed(s: State, t: State, i: Id, inst: Inst)
    requires Staffed(s) && Quiet(s, t, i, inst)
    requires (StatusOf(inst) == Running) == (StatusOf(s.store[i]) == Running)
    ensures Staffed(t)
  {
    hide StatusOf;
  }

  lemma QuietSlotted(s: State, t: State, i: Id, inst: Inst)
    requires Slotted(s) && Quiet(s, t, i, inst) && Active(StatusOf(inst)) == Active(StatusOf(s.store[i]))
    ensures Slotted(t)
  {
    forall task <- t.cfg.tasks
      ensures Get(t.count, task, 0) + Twice(t.store, t.again, OfTask(task)) == Tally(t.store, Active, OfTask(task))
    {
      hide StatusOf;
      TallyPut(s.store, i, inst, Active, OfTask(task));
      TwicePut(s.store, i, inst, s.again, OfTask(task));
    }
    hide StatusOf;
  }

  lemma QuietLoaded(s: State, t: State, i: Id, inst: Inst)
    requires Slotted(s) && Loaded(s) && Quiet(s, t, i, inst)
    requires Active(StatusOf(inst)) == Active(StatusOf(s.store[i]))
    ensures Loaded(t)
  {
    if NoForce(t) {
      NoForcePut(s, t, i, inst);
    }
    hide StatusOf, Tally, Twice, Used, OnHost, Uncharged;
    forall h, k | h != "" || NoForce(t) ensures Balanced(t, h, k) {
      assert Balanced(s, h, k);
      TallyPut(s.store, i, inst, Every, Uncharged(s.cfg, h, k));
      TallyPut(s.store, i, inst, Active, OnHost(s.cfg, h, k));
      TwicePut(s.store, i, inst, s.again, OnHost(s.cfg, h, k));
    }
  }

  lemma NoForcePut(s: State, t: State, i: Id, inst: Inst)
    requires NoForce(t) && i in s.store && t.store == s.store[i := inst] && KeyOf(inst) == KeyOf(s.store[i])
    ensures NoForce(s)
  {
    forall j <- s.store ensures !s.store[j].force {
      assert j in t.store;
    }
  }

  lemma QuietBounded(s: State, t: State, i: Id, inst: Inst)
    requires Bounded(s) && Quiet(s, t, i, inst)
    requires StatusOf(inst) == Queued ==>
               StatusOf(s.store[i]) == Queued || Tally(s.store, IsQueued, One()) < s.cfg.maxQueued
    ensures Bounded(t)
  {
    hide StatusOf;
    TallyPut(s.store, i, inst, IsQueued, One());
    if NoForce(t) {
      NoForcePut(s, t, i, inst);
    }
    hide Tally;
  }

  lemma QuietKeeps(s: State, t: State, i: Id, inst: Inst, steady: bool)
    requires Books(s, steady) && Quiet(s, t, i, inst) && Active(StatusOf(inst)) == Active(StatusOf(s.store[i]))
    requires (StatusOf(inst) == Running) == (StatusOf(s.store[i]) == Running)
    requires steady && StatusOf(inst) == Queued ==>
               StatusOf(s.store[i]) == Queued || Tally(s.store, IsQueued, One()) < s.cfg.maxQueued
    ensures Books(t, steady)
  {
    hide Staffed, Slotted, Loaded, Bounded, Quiet, StatusOf;
    QuietStaffed(s, t, i, inst);
    if steady {
      QuietSlotted(s, t, i, inst);
      QuietLoaded(s, t, i, inst);
      QuietBounded(s, t, i, inst);
    }
  }

  // ---------------------------------------------------------------------------------------------
  // A new instance
  // ---------------------------------------------------------------------------------------------

  lemma TwiceGrow(store: Store, more: Store, again: seq<Id>, f: Key -> int)
    requires forall k :: 0 <= k < |again| ==>
               again[k] in store && again[k] in more && KeyOf(more[again[k]]) == KeyOf(store[again[k]])
    ensures Twice(more, again, f) == Twice(store, again, f)
  {
    if again != [] {
      TwiceGrow(store, more, again[..|again|-1], f);
    }
  }

  lemma EnterAgain(s: State, inst: Inst, herd: Id, herded: bool, f: Key -> int)
    requires Shape(s) && Newborn(s, inst, herd, herded) && Slotted(s)
    ensures Twice(Enter(s, inst, herd, herded).store, s.again, f) == Twice(s.store, s.again, f)
  {
    EnterEffect(s, inst, herd, herded);
    hide Enter, StatusOf, Coherent, Newborn, Shape, Twice;
    TwiceGrow(s.store, Enter(s, inst, herd, herded).store, s.again, f);
  }

  lemma EnterSlotted(s: State, inst: Inst, herd: Id, herded: bool)
    requires Shape(s) && Newborn(s, inst, herd, herded) && Slotted(s)
    ensures Slotted(Enter(s, inst, herd, herded))
  {
    EnterEffect(s, inst, herd, herded);
    hide Enter, Newborn, Coherent, Shape, Tally, Twice;
    var t := Enter(s, inst, herd, herded);
    forall task <- t.cfg.tasks
      ensures Get(t.count, task, 0) + Twice(t.store, t.again, OfTask(task)) == Tally(t.store, Active, OfTask(task))
    {
      EnterTally(s, inst, herd, herded, Active, OfTask(task));
      EnterAgain(s, inst, herd, herded, OfTask(task));
    }
    hide StatusOf;
  }

  lemma EnterNoForce(s: State, inst: Inst, herd: Id, herded: bool)
    requires Shape(s) && Newborn(s, inst, herd, herded) && NoForce(Enter(s, inst, herd, herded))
    ensures NoForce(s)
  {
    EnterEffect(s, inst, herd, herded);
    hide Enter, StatusOf, Coherent, Newborn, Shape;
    forall j <- s.store ensures !s.store[j].force {
      assert j in Enter(s, inst, herd, herded).store;
    }
  }

  lemma EnterUncharged(s: State, inst: Inst, herd: Id, herded: bool, h: HostId, k: Kind)
    requires Shape(s) && Newborn(s, inst, herd, herded) && (h != "" || NoForce(Enter(s, inst, herd, herded)))
    ensures Tally(Enter(s, inst, herd, herded).store, Every, Uncharged(s.cfg, h, k))
         == Tally(s.store, Every, Uncharged(s.cfg, h, k))
  {
    var t, f := Enter(s, inst, herd, herded), Uncharged(s.cfg, h, k);
    TallyPut(s.store, s.next, inst, Every, f);
    assert s.next in t.store && t.store[s.next] == inst;
    assert f(KeyOf(inst)) == 0;
    if herded {
      TallyPut(s.store[s.next := inst], herd, t.store[herd], Every, f);
    }
  }

  lemma EnterLoaded(s: State, inst: Inst, herd: Id, herded: bool)
    requires Shape(s) && Newborn(s, inst, herd, herded) && Slotted(s) && Loaded(s)
    ensures Loaded(Enter(s, inst, herd, herded))
  {
    var t := Enter(s, inst, herd, herded);
    if NoForce(t) {
      EnterNoForce(s, inst, herd, herded);
    }
    hide Enter, Newborn, Shape, Slotted, Balanced, NoForce;
    forall h, k | h != "" || NoForce(t) ensures Balanced(t, h, k) {
      assert Balanced(s, h, k);
      EnterBalanced(s, inst, herd, herded, h, k);
    }
  }

  lemma EnterBalanced(s: State, inst: Inst, herd: Id, herded: bool, h: HostId, k: Kind)
    requires Shape(s) && Newborn(s, inst, herd, herded) && Slotted(s) && Balanced(s, h, k)
    requires h != "" || NoForce(Enter(s, inst, herd, herded))
    ensures Balanced(Enter(s, inst, herd, herded), h, k)
  {
    var t := Enter(s, inst, herd, herded);
    EnterAccounts(s, inst, herd, herded);
    hide Enter, Newborn, StatusOf, Coherent, Shape, Slotted, Tally, Twice, NoForce, Used, OnHost, Uncharged;
    EnterUncharged(s, inst, herd, herded, h, k);
    EnterTally(s, inst, herd, herded, Active, OnHost(s.cfg, h, k));
    EnterAgain(s, inst, herd, herded, OnHost(s.cfg, h, k));
  }

  lemma EnterAccounts(s: State, inst: Inst, herd: Id, herded: bool)
    ensures var t := Enter(s, inst, herd, herded);
            t.cfg == s.cfg && t.used == s.used && t.again == s.again && t.count == s.count
  {
  }

  lemma EnterBounded(s: State, inst: Inst, herd: Id, herded: bool)
    requires Shape(s) && Newborn(s, inst, herd, herded) && Bounded(s)
    ensures Bounded(Enter(s, inst, herd, herded))
  {
    var t := Enter(s, inst, herd, herded);
    EnterEffect(s, inst, herd, herded);
    EnterTally(s, inst, herd, herded, IsQueued, One());
    if NoForce(t) {
      EnterNoForce(s, inst, herd, herded);
    }
    hide Enter, Newborn, StatusOf, Coherent, Shape, Tally, NoForce;
  }

  lemma InsertBooks(s: State, req: Request, herd: Id, parent: Id, steady: bool)
    requires Shape(s) && Books(s, steady) && (herd == 0 || IsHerder(s.store, herd))
    ensures Books(Insert(s, req, herd, parent), steady)
  {
    NewInstIsNewborn(s, req, herd, parent);
    hide Newborn, Enter, NewInst, Shape, Staffed, Slotted, Loaded, Bounded;
    var herded := herd in s.live && herd in s.store;
    var inst := NewInst(s.next, req, herd, herded, parent);
    EnterStaffed(s, inst, herd, herded);
    if steady {
      EnterSlotted(s, inst, herd, herded);
      EnterLoaded(s, inst, herd, herded);
      EnterBounded(s, inst, herd, herded);
    }
  }

  // ---------------------------------------------------------------------------------------------
  // A started instance finishes
  // ---------------------------------------------------------------------------------------------

  /** A started instance gives back what it holds: a live one was waiting, another was finished. */
  ghost predicate Returned(s: State, t: State, i: Id, inst: Inst) {
    && i in s.store && t.store == s.store[i := inst] && KeyOf(inst) == KeyOf(s.store[i])
    && t.busy == s.busy && t.idle == s.idle && t.made == s.made && t.cfg == s.cfg
    && t.count == GiveBack(s, i).count && t.used == GiveBack(s, i).used
    && t.again == (if i in s.live then s.again else s.again + [i])
    && Finished(StatusOf(inst))
    && (if i in s.live then StatusOf(s.store[i]) == Waiting else Done(s.store, i))
  }

  lemma ReturnedStaffed(s: State, t: State, i: Id, inst: Inst)
    requires Staffed(s) && Returned(s, t, i, inst)
    ensures Staffed(t)
  {
    hide StatusOf, GiveBack;
  }

  /** The weight in use drops by that of the instance, or one more return is recorded. */
  lemma ReturnedTally(s: State, t: State, i: Id, inst: Inst, f: Key -> int)
    requires Slotted(s) && Returned(s, t, i, inst)
    ensures Tally(t.store, Active, f) - Twice(t.store, t.again, f)
         == Tally(s.store, Active, f) - Twice(s.store, s.again, f) - f(KeyOf(s.store[i]))
  {
    hide GiveBack, StatusOf;
    TallyPut(s.store, i, inst, Active, f);
    TwicePut(s.store, i, inst, s.again, f);
    if i !in s.live {
      assert t.again[..|t.again|-1] == s.again;
    }
  }

  lemma ReturnedSlotted(s: State, t: State, i: Id, inst: Inst)
    requires Slotted(s) && Returned(s, t, i, inst)
    ensures Slotted(t)
  {
    hide StatusOf, Tally, Twice, Credited;
    forall task <- t.cfg.tasks
      ensures Get(t.count, task, 0) + Twice(t.store, t.again, OfTask(task)) == Tally(t.store, Active, OfTask(task))
    {
      ReturnedTally(s, t, i, inst, OfTask(task));
    }
  }

  lemma GiveBackUsed(s: State, i: Id, h: HostId, k: Kind)
    ensures Used(GiveBack(s, i).used, h, k) == Used(s.used, h, k) - OnHost(s.cfg, h, k)(KeyOf(Data(s, i)))
  {
  }

  lemma ReturnedLoaded(s: State, t: State, i: Id, inst: Inst)
    requires Slotted(s) && Loaded(s) && Returned(s, t, i, inst)
    ensures Loaded(t)
  {
    hide StatusOf, Tally, Twice, GiveBack, Slotted, Used, OnHost, Uncharged;
    if NoForce(t) {
      NoForcePut(s, t, i, inst);
    }
    forall h, k | h != "" || NoForce(t) ensures Balanced(t, h, k) {
      assert Balanced(s, h, k);
      ReturnedTally(s, t, i, inst, OnHost(s.cfg, h, k));
      TallyPut(s.store, i, inst, Every, Uncharged(s.cfg, h, k));
      GiveBackUsed(s, i, h, k);
    }
  }

  lemma ReturnedBounded(s: State, t: State, i: Id, inst: Inst)
    requires Bounded(s) && Returned(s, t, i, inst)
    ensures Bounded(t)
  {
    TallyPut(s.store, i, inst, IsQueued, One());
    hide StatusOf, Tally, Credited, Used, Capacity;
    if NoForce(t) {
      NoForcePut(s, t, i, inst);
      forall h, k ensures Used(t.used, h, k) <= Capacity(t.cfg, h, k) {
        GiveBackUsed(s, i, h, k);
      }
    }
  }

  lemma ReturnedKeeps(s: State, t: State, i: Id, inst: Inst, steady: bool)
    requires Books(s, steady) && Returned(s, t, i, inst)
    ensures Books(t, steady)
  {
    hide Staffed, Slotted, Loaded, Bounded, Returned;
    ReturnedStaffed(s, t, i, inst);
    if steady {
      ReturnedSlotted(s, t, i, inst);
      ReturnedLoaded(s, t, i, inst);
      ReturnedBounded(s, t, i, inst);
    }
  }

  /** Closing an instance that is not running keeps the books. */
  lemma CloseBooks(s: State, i: Id, asFailure: bool, steady: bool)
    requires Books(s, steady) && i in s.store && Coherent(s.store[i])
    requires if i in s.live then Unready(s.store, i) || StatusOf(s.store[i]) == Waiting else Done(s.store, i)
    ensures Books(Close(s, i, asFailure), steady)
  {
    hide Close, Closed, Coherent, Books;
    if s.store[i].started {
      CloseReturns(s, i, asFailure);
      ReturnedKeeps(s, Close(s, i, asFailure), i, Closed(s, i, asFailure), steady);
    } else {
      CloseQuietly(s, i, asFailure);
      QuietKeeps(s, Close(s, i, asFailure), i, Closed(s, i, asFailure), steady);
    }
  }

  lemma CloseReturns(s: State, i: Id, asFailure: bool)
    requires i in s.store && Coherent(s.store[i]) && s.store[i].started
    requires if i in s.live then Unready(s.store, i) || StatusOf(s.store[i]) == Waiting else Done(s.store, i)
    ensures Returned(s, Close(s, i, asFailure), i, Closed(s, i, asFailure))
  {
    ClosedEffect(s, i, asFailure);
    CloseEffect(s, i, asFailure);
    GiveBackEffect(s, i);
    hide Closed, Credited;
  }

  lemma CloseQuietly(s: State, i: Id, asFailure: bool)
    requires i in s.store && Coherent(s.store[i]) && !s.store[i].started
    ensures Quiet(s, Close(s, i, asFailure), i, Closed(s, i, asFailure))
    ensures !Active(StatusOf(s.store[i])) && StatusOf(s.store[i]) != Running
    ensures Finished(StatusOf(Closed(s, i, asFailure)))
  {
    ClosedEffect(s, i, asFailure);
    CloseEffect(s, i, asFailure);
    hide Closed;
  }

  // ---------------------------------------------------------------------------------------------
  // An instance is queued
  // ---------------------------------------------------------------------------------------------

  lemma QueueSizeIsTally(s: State, limbo: set<Id>)
    requires Shape(s) && Clean(s, limbo)
    ensures QueueSize(s) == Tally(s.store, IsQueued, One())
  {
    var those := set j | j in s.live && j in s.store && StatusAt(s, j) == Queued;
    var weight := (i: nat) => if i in s.store then Part(s.store[i], IsQueued, One()) else 0;
    TotalCounts(s.store.Keys, weight, those);
  }

  lemma AdmitEffect(s: State, i: Id)
    requires i in s.store && i in s.live && StatusOf(s.store[i]) == Planned && Coherent(s.store[i])
    ensures QueueSize(s) >= s.cfg.maxQueued ==> Admit(s, i) == s
    ensures QueueSize(s) < s.cfg.maxQueued ==>
              var inst := s.store[i].(queued := true);
              && Admit(s, i) == s.(store := s.store[i := inst])
              && StatusOf(inst) == Queued && Coherent(inst)
              && Quiet(s, Admit(s, i), i, inst)
  {
    hide QueueSize;
    assert s.live + {i} == s.live;
  }

  lemma NotActive(a: Inst, b: Inst)
    requires StatusOf(a) == Queued && StatusOf(b) == Planned
    ensures Active(StatusOf(a)) == Active(StatusOf(b))
  {
  }

  lemma AdmitBooks(s: State, i: Id, limbo: set<Id>, steady: bool)
    requires Shape(s) && Clean(s, limbo) && Books(s, steady)
    requires i in s.store && i in s.live && StatusOf(s.store[i]) == Planned
    ensures Books(Admit(s, i), steady)
  {
    QueueSizeIsTally(s, limbo);
    AdmitEffect(s, i);
    var inst := s.store[i].(queued := true);
    hide *;
    if QueueSize(s) < s.cfg.maxQueued {
      NotActive(inst, s.store[i]);
      QuietKeeps(s, Admit(s, i), i, inst, steady);
    }
  }

  // ---------------------------------------------------------------------------------------------
  // An instance starts, an executor stops
  // ---------------------------------------------------------------------------------------------

  /** The pool before and after an instance got an executor. */
  ghost predicate Manned(s: State, t: State, i: Id, inst: Inst, e: Executor) {
    && t.store == s.store[i := inst] && t.busy == s.busy[i := e]
    && (if s.idle == [] then e == Executor(s.made, true) && t.idle == [] && t.made == s.made + 1
        else e == s.idle[0] && t.idle == s.idle[1..] && t.made == s.made)
  }

  lemma LaunchEffect(s: State, i: Id, h: HostId)
    requires i in s.store && StatusOf(s.store[i]) == Queued
    ensures var inst := s.store[i].(target := h, started := true);
            var e := if s.idle == [] then Executor(s.made, true) else s.idle[0];
            StatusOf(inst) == Running && Manned(s, Launch(s, i, h), i, inst, e)
  {
    hide Charged, ResourcesOf;
  }

  lemma MannedStaffed(s: State, t: State, i: Id, inst: Inst, e: Executor)
    requires Staffed(s) && Manned(s, t, i, inst, e) && i in s.store
    requires StatusOf(s.store[i]) != Running && StatusOf(inst) == Running
    ensures Staffed(t)
  {
    hide StatusOf;
    assert forall k :: 0 <= k < |t.idle| ==> exists j :: 0 <= j < |s.idle| && s.idle[j] == t.idle[k];
    if s.idle != [] {
      assert forall k :: 0 <= k < |t.idle| ==> t.idle[k] == s.idle[k+1];
    }
  }

  lemma LaunchStaffed(s: State, i: Id, h: HostId)
    requires Staffed(s) && i in s.store && StatusOf(s.store[i]) == Queued
    ensures Staffed(Launch(s, i, h))
  {
    LaunchEffect(s, i, h);
    hide Staffed, Launch, StatusOf, Manned;
    var e := if s.idle == [] then Executor(s.made, true) else s.idle[0];
    MannedStaffed(s, Launch(s, i, h), i, s.store[i].(target := h, started := true), e);
  }

  lemma LaunchTally(s: State, i: Id, h: HostId, f: Key -> int)
    requires Slotted(s) && i in s.store && StatusOf(s.store[i]) == Queued
    ensures var t := Launch(s, i, h);
            Tally(t.store, Active, f) - Twice(t.store, t.again, f)
            == Tally(s.store, Active, f) - Twice(s.store, s.again, f) + f(KeyOf(t.store[i]))
  {
    var inst := s.store[i].(target := h, started := true);
    assert Launch(s, i, h).store == s.store[i := inst] && Launch(s, i, h).again == s.again by {
      hide Charged, ResourcesOf, StatusOf;
    }
    hide Launch;
    TallyPut(s.store, i, inst, Active, f);
    assert i !in s.again by { hide Tally; }
    TwicePut(s.store, i, inst, s.again, f);
  }

  lemma LaunchSlotted(s: State, i: Id, h: HostId)
    requires Slotted(s) && i in s.store && StatusOf(s.store[i]) == Queued
    ensures Slotted(Launch(s, i, h))
  {
    hide Tally, Twice, Charged, ResourcesOf;
    var t := Launch(s, i, h);
    forall task <- t.cfg.tasks
      ensures Get(t.count, task, 0) + Twice(t.store, t.again, OfTask(task)) == Tally(t.store, Active, OfTask(task))
    {
      LaunchTally(s, i, h, OfTask(task));
    }
  }

  lemma LaunchUsed(s: State, i: Id, h: HostId, j: HostId, k: Kind)
    requires i in s.store
    ensures Used(Launch(s, i, h).used, j, k)
         == Used(s.used, j, k) + if s.store[i].force then 0 else OnHost(s.cfg, j, k)(KeyOf(Launch(s, i, h).store[i]))
  {
  }

  lemma LaunchForce(s: State, i: Id, h: HostId)
    requires i in s.store && NoForce(Launch(s, i, h))
    ensures NoForce(s)
  {
    hide Charged, ResourcesOf;
    forall j <- s.store ensures !s.store[j].force {
      assert j in Launch(s, i, h).store;
    }
  }

  /** A forced instance is one more that is not charged. */
  lemma LaunchUncharged(s: State, i: Id, h: HostId, j: HostId, k: Kind)
    requires i in s.store && StatusOf(s.store[i]) == Queued && Coherent(s.store[i]) && (j != "" || !s.store[i].force)
    ensures var t := Launch(s, i, h);
            Tally(t.store, Every, Uncharged(s.cfg, j, k))
            == Tally(s.store, Every, Uncharged(s.cfg, j, k))
               + if s.store[i].force then OnHost(s.cfg, j, k)(KeyOf(t.store[i])) else 0
  {
    var inst := s.store[i].(target := h, started := true);
    assert Launch(s, i, h).store == s.store[i := inst] by {
      hide Charged, ResourcesOf, StatusOf;
    }
    hide Launch, ResourcesOf;
    TallyPut(s.store, i, inst, Every, Uncharged(s.cfg, j, k));
  }

  lemma LaunchLoaded(s: State, i: Id, h: HostId)
    requires Slotted(s) && Loaded(s) && i in s.store && StatusOf(s.store[i]) == Queued && Coherent(s.store[i])
    ensures Loaded(Launch(s, i, h))
  {
    var t := Launch(s, i, h);
    assert t.cfg == s.cfg by { hide *; LaunchConfig(s, i, h); }
    hide Launch, Tally, Twice, StatusOf, Used, OnHost, Uncharged, Coherent;
    if NoForce(t) {
      LaunchForce(s, i, h);
    }
    forall j, k | j != "" || NoForce(t) ensures Balanced(t, j, k) {
      assert Balanced(s, j, k);
      LaunchTally(s, i, h, OnHost(s.cfg, j, k));
      LaunchUncharged(s, i, h, j, k);
      LaunchUsed(s, i, h, j, k);
    }
  }

  lemma LaunchConfig(s: State, i: Id, h: HostId)
    ensures Launch(s, i, h).cfg == s.cfg
  {
    hide Charged, ResourcesOf;
  }

  /** What the start of an instance checks before it launches it. */
  ghost predicate MayLaunch(s: State, i: Id, h: HostId) {
    && i in s.store && StatusOf(s.store[i]) == Queued && s.store[i].task in s.cfg.tasks
    && (!s.store[i].force ==>
          && Get(s.count, s.store[i].task, 0) < s.cfg.tasks[s.store[i].task].maxInstances
          && Fits(s, h, s.cfg.tasks[s.store[i].task].resources))
  }

  lemma LaunchBounded(s: State, i: Id, h: HostId)
    requires Bounded(s) && MayLaunch(s, i, h)
    ensures Bounded(Launch(s, i, h))
  {
    LaunchQueue(s, i, h);
    LaunchConfig(s, i, h);
    if NoForce(Launch(s, i, h)) {
      LaunchForce(s, i, h);
      LaunchCounts(s, i, h);
      LaunchFits(s, i, h);
    }
    hide Tally, StatusOf, Launch, MayLaunch, Used, Capacity;
  }

  lemma LaunchCounts(s: State, i: Id, h: HostId)
    requires Bounded(s) && NoForce(s) && MayLaunch(s, i, h)
    ensures forall task <- s.cfg.tasks :: Get(Launch(s, i, h).count, task, 0) <= s.cfg.tasks[task].maxInstances
  {
    hide Charged, ResourcesOf, Used, Capacity, Fits, Tally, StatusOf;
  }

  lemma LaunchFits(s: State, i: Id, h: HostId)
    requires Bounded(s) && NoForce(s) && MayLaunch(s, i, h)
    ensures forall j, k :: Used(Launch(s, i, h).used, j, k) <= Capacity(s.cfg, j, k)
  {
    hide Used, Capacity, Launch, Tally, StatusOf;
    forall j, k ensures Used(Launch(s, i, h).used, j, k) <= Capacity(s.cfg, j, k) {
      LaunchCapacity(s, i, h, j, k);
    }
  }

  lemma LaunchCapacity(s: State, i: Id, h: HostId, j: HostId, k: Kind)
    requires MayLaunch(s, i, h) && !s.store[i].force && Used(s.used, j, k) <= Capacity(s.cfg, j, k)
    ensures Used(Launch(s, i, h).used, j, k) <= Capacity(s.cfg, j, k)
  {
    LaunchUsed(s, i, h, j, k);
    assert KeyOf(Launch(s, i, h).store[i]).target == h && KeyOf(Launch(s, i, h).store[i]).task == s.store[i].task;
    hide Launch;
    var resources := s.cfg.tasks[s.store[i].task].resources;
    if j == h && k in resources {
      assert resources[k] <= Capacity(s.cfg, h, k) - Used(s.used, h, k);
    }
  }

  lemma LaunchQueue(s: State, i: Id, h: HostId)
    requires i in s.store && StatusOf(s.store[i]) == Queued
    ensures Tally(Launch(s, i, h).store, IsQueued, One()) <= Tally(s.store, IsQueued, One())
  {
    var inst := s.store[i].(target := h, started := true);
    assert Launch(s, i, h).store == s.store[i := inst] by {
      hide Charged, ResourcesOf, StatusOf;
    }
    hide Launch;
    TallyPut(s.store, i, inst, IsQueued, One());
  }

  lemma LaunchBooks(s: State, i: Id, h: HostId, steady: bool)
    requires Books(s, steady) && MayLaunch(s, i, h) && Coherent(s.store[i])
    ensures Books(Launch(s, i, h), steady)
  {
    hide Staffed, Slotted, Loaded, Bounded, Launch, StatusOf;
    LaunchStaffed(s, i, h);
    if steady {
      LaunchSlotted(s, i, h);
      LaunchLoaded(s, i, h);
      LaunchBounded(s, i, h);
    }
  }

  lemma VacateEffect(s: State, i: Id, ok: bool)
    requires Staffed(s) && i in s.busy && Coherent(s.store[i])
    ensures var inst := s.store[i].(stopped := true, success := ok, reported := ok);
            && Vacate(s, i, ok) == s.(store := s.store[i := inst], busy := s.busy - {i},
                                      idle := if s.busy[i].temporary then s.idle else s.idle + [s.busy[i]])
            && StatusOf(s.store[i]) == Running && StatusOf(inst) == Waiting && Coherent(inst)
  {
  }

  lemma VacateStaffed(s: State, i: Id, ok: bool)
    requires Staffed(s) && i in s.busy && Coherent(s.store[i])
    ensures Staffed(Vacate(s, i, ok))
  {
    VacateEffect(s, i, ok);
    hide StatusOf, Coherent, Vacate;
  }

  lemma VacateBooks(s: State, i: Id, ok: bool, steady: bool)
    requires Books(s, steady) && i in s.busy && i in s.store && Coherent(s.store[i])
    ensures Books(Vacate(s, i, ok), steady)
  {
    VacateStaffed(s, i, ok);
    if steady {
      VacateAccounts(s, i, ok);
    }
    hide StatusOf, Coherent, Vacate, Staffed, Slotted, Loaded, Bounded;
  }

  lemma VacateAccounts(s: State, i: Id, ok: bool)
    requires Staffed(s) && i in s.busy && i in s.store && Coherent(s.store[i])
    requires Slotted(s) && Loaded(s) && Bounded(s)
    ensures var t := Vacate(s, i, ok);
            Slotted(t) && Loaded(t) && Bounded(t)
  {
    VacateEffect(s, i, ok);
    hide StatusOf, Tally, Twice, Coherent, Vacate, Staffed, Slotted, Loaded, Bounded;
    var inst := s.store[i].(stopped := true, success := ok, reported := ok);
    // The accounts do not look at the pool.
    var u := s.(store := s.store[i := inst]);
    QuietSlotted(s, u, i, inst);
    QuietLoaded(s, u, i, inst);
    QuietBounded(s, u, i, inst);
    SameAccounts(u, Vacate(s, i, ok));
  }

  lemma SameAccounts(s: State, t: State)
    requires Slotted(s) && Loaded(s) && Bounded(s)
    requires t.store == s.store && t.count == s.count && t.used == s.used && t.again == s.again && t.cfg == s.cfg
    ensures Slotted(t) && Loaded(t) && Bounded(t)
  {
    hide StatusOf, Tally, Twice, Used;
    forall h, k | h != "" || NoForce(t) ensures Balanced(t, h, k) {
      assert Balanced(s, h, k);
    }
  }
}
