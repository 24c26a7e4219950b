/** What holds in every state that a run of the scheduler can reach. */
module SchedulerTheorems {
  import opened TaskStatus
  import opened Totals
  import opened SchedulerModel
  import opened SchedulerInvariants
  import opened SchedulerHerds
  import opened SchedulerBooks
  import opened SchedulerSteps
  import opened SchedulerActions
  import opened SchedulerRuns
  import C = Conditions

  // ---------------------------------------------------------------------------------------------
  // Runs
  // ---------------------------------------------------------------------------------------------

  ghost predicate Possible(s: State, events: seq<Event>)
    decreases |events|
  {
    events == [] || (Enabled(s, events[0]) && Possible(Apply(s, events[0]), events[1..]))
  }

  ghost function After(s: State, events: seq<Event>): State
    requires Possible(s, events)
    decreases |events|
  {
    if events == [] then s else After(Apply(s, events[0]), events[1..])
  }

  /** No reload of the run takes anything away from the tasks that have instances. */
  ghost predicate Steady(s: State, events: seq<Event>)
    requires Possible(s, events)
    decreases |events|
  {
    events == [] || (Mild(s, events[0]) && Steady(Apply(s, events[0]), events[1..]))
  }

  /** A state some run reaches; a steady run when asked for. */
  ghost predicate Reached(s: State, steady: bool) {
    exists cfg, up, order, events: seq<Event> ::
      && Possible(Initial(cfg, up, order), events)
      && (steady ==> Steady(Initial(cfg, up, order), events))
      && s == After(Initial(cfg, up, order), events)
  }

  lemma InitialInv(cfg: Config, up: set<HostId>, order: map<string, seq<HostId>>, steady: bool)
    ensures Inv(Initial(cfg, up, order), {}, steady)
    ensures Excess(Initial(cfg, up, order)) == 0
  {
    var s := Initial(cfg, up, order);
    assert AtWork(s) == {};
    forall p, f ensures Tally(s.store, p, f) == 0 {
    }
    hide Tally, StatusOf;
    assert s.idle == NewExecutors(0, cfg.maxTotal);
  }

  lemma {:induction false} RunKeeps(s: State, events: seq<Event>, steady: bool)
    requires Inv(s, {}, steady) && Possible(s, events) && (steady ==> Steady(s, events))
    ensures Inv(After(s, events), {}, steady) && Progress(s, After(s, events))
    decreases |events|
  {
    if events == [] {
      ProgressSame(s, s);
    } else {
      var t := Apply(s, events[0]);
      assert Possible(t, events[1..]) && Enabled(s, events[0]);
      assert After(s, events) == After(t, events[1..]);
      assert steady ==> Mild(s, events[0]) && Steady(t, events[1..]);
      ContinuesIsProgress(s, events[0]);
      hide *;
      ApplyKeeps(s, events[0], steady);
      RunKeeps(t, events[1..], steady);
      ProgressTrans(s, t, After(t, events[1..]));
    }
  }

  lemma ContinuesIsProgress(s: State, e: Event)
    requires Enabled(s, e)
    ensures Continues(s, e) ==> Progress(s, Apply(s, e))
  {
    hide Progress, Apply, Permanent;
  }

  lemma ReachedInv(s: State, steady: bool)
    requires Reached(s, steady)
    ensures Inv(s, {}, steady) && Herds(s, {}, steady) && Books(s, steady)
    ensures Shape(s) && Clean(s, {}) && Indexed(s, {}) && Herding(s, {}) && (steady ==> Judged(s))
    ensures Staffed(s) && (steady ==> Slotted(s) && Loaded(s) && Bounded(s))
  {
    var cfg, up, order, events: seq<Event> :|
      && Possible(Initial(cfg, up, order), events)
      && (steady ==> Steady(Initial(cfg, up, order), events))
      && s == After(Initial(cfg, up, order), events);
    hide Possible, Steady, After, Initial, Inv;
    InitialInv(cfg, up, order, steady);
    RunKeeps(Initial(cfg, up, order), events, steady);
    InvParts(s, {}, steady);
    hide Shape, Clean, Indexed, Herding, Judged, Staffed, Slotted, Loaded, Bounded;
  }

  // ---------------------------------------------------------------------------------------------
  // Herds
  // ---------------------------------------------------------------------------------------------

  /** The live map holds the unfinished instances, and the finished sheep of live herders: when a
      herder goes its finished sheep go, and its other sheep go as soon as they finish. */
  lemma LiveMapIsClean(s: State)
    requires Reached(s, false)
    ensures s.live <= s.store.Keys
    ensures forall i <- s.store ::
              i in s.live <==> !Finished(StatusOf(s.store[i]))
                               || (s.store[i].herd != i && s.store[i].herd in s.live)
    ensures forall h <- s.herds.Keys + s.awaited.Keys :: h in s.live && h in s.store && s.store[h].herd == h
  {
    ReachedInv(s, false);
    forall i <- s.store | s.store[i].herd != i && s.store[i].herd in s.live ensures i in s.live {
      assert IsHerder(s.store, s.store[i].herd);
      assert HerdIndexed(s, {}, s.store[i].herd);
      assert i in Members(s.store, s.store[i].herd);
    }
    hide StatusOf, HerdIndexed, Members, Pending, Reached, Herds, Books, Inv, Herding;
  }

  /** The unfinished sheep of a herder. */
  ghost function Unfinished(store: Store, h: Id): set<Id> {
    set i | i in store && store[i].herd == h && i != h && !Finished(StatusOf(store[i]))
  }

  /** No wake-up is lost: a live herder awaits exactly its unfinished sheep, and a waiting one
      has some. */
  lemma NoLostWakeUp(s: State, h: Id)
    requires Reached(s, false) && h in s.live && h in s.store && s.store[h].herd == h
    ensures Get(s.awaited, h, {}) == Unfinished(s.store, h)
    ensures StatusOf(s.store[h]) == Waiting ==> Unfinished(s.store, h) != {}
  {
    HerderOf(s.store, h);
    hide *;
    ReachedInv(s, false);
    AwaitedIsPending(s, h);
    PendingIsUnfinished(s.store, h);
    if StatusOf(s.store[h]) == Waiting {
      WaitingAwaits(s, h);
    }
  }

  lemma AwaitedIsPending(s: State, h: Id)
    requires Indexed(s, {}) && h in s.live && IsHerder(s.store, h)
    ensures Get(s.awaited, h, {}) == Pending(s.store, h, {})
  {
    assert HerdIndexed(s, {}, h);
    hide Indexed, Members, Pending;
  }

  lemma PendingIsUnfinished(store: Store, h: Id)
    ensures Pending(store, h, {}) == Unfinished(store, h)
  {
    hide StatusOf;
  }

  lemma WaitingAwaits(s: State, h: Id)
    requires Herding(s, {}) && h in s.live && IsHerder(s.store, h) && StatusOf(s.store[h]) == Waiting
    ensures Get(s.awaited, h, {}) != {}
  {
    hide StatusOf;
  }

  /** When a herder that waits for its sheep is finished, all those planned into its herd while it
      lived are, and it succeeds or fails as its policy says; it is canceled only with them. */
  lemma HerderEndsAsItsPolicySays(s: State, h: Id)
    requires Reached(s, true) && h in s.store && s.store[h].herd == h
    requires PolicyOf(s, s.store[h].task) != NoWait && Finished(StatusOf(s.store[h]))
    ensures forall i <- s.store[h].herded ::
              i in s.store && s.store[i].herd == h && i != h && Finished(StatusOf(s.store[i]))
    ensures StatusOf(s.store[h]) == Canceled ==>
              forall i <- s.store[h].herded :: StatusOf(s.store[i]) == Canceled
    ensures StatusOf(s.store[h]) == Success || StatusOf(s.store[h]) == Failure ==>
              var own, sheep := s.store[h].reported, s.store[h].herded;
              StatusOf(s.store[h]) == Success <==>
                match PolicyOf(s, s.store[h].task)
                case AllSuccess => own && forall i <- sheep :: StatusOf(s.store[i]) == Success
                case NoFailure => own && forall i <- sheep :: StatusOf(s.store[i]) != Failure
                case OneSuccess => if sheep == {} then own else exists i <- sheep :: StatusOf(s.store[i]) == Success
                case OwnStatus => own
                case NoWait => own
  {
    ReachedInv(s, true);
    assert Judged(s);
    hide Reached, Herds, Books, Inv, Shape, Clean, Indexed, Herding, Judge;
    assert IsHerder(s.store, h) && JudgedOn(s, h);
    FlockIs(s.store, h);
    JudgeIs(PolicyOf(s, s.store[h].task), s.store[h].reported, s.store, h);
    hide Flock, PolicyOf;
  }

  lemma FlockIs(store: Store, h: Id)
    requires h in store && forall i <- store[h].herded :: i in store
    ensures Flock(store, h).Keys == store[h].herded
    ensures forall i <- store[h].herded :: Flock(store, h)[i] == StatusOf(store[i])
  {
    hide StatusOf;
  }

  lemma JudgeIs(policy: HerdingPolicy, own: bool, store: Store, h: Id)
    requires h in store && forall i <- store[h].herded :: i in store
    ensures var sheep := store[h].herded;
            Judge(policy, own, Flock(store, h)) <==>
              match policy
              case AllSuccess => own && forall i <- sheep :: StatusOf(store[i]) == Success
              case NoFailure => own && forall i <- sheep :: StatusOf(store[i]) != Failure
              case OneSuccess => if sheep == {} then own else exists i <- sheep :: StatusOf(store[i]) == Success
              case OwnStatus => own
              case NoWait => own
  {
    FlockIs(store, h);
    hide StatusOf, Flock;
    var flock := Flock(store, h);
    if flock == map[] {
      assert flock.Keys == {};
    } else {
      assert flock.Keys != {};
    }
    if policy == OneSuccess && exists i <- store[h].herded :: StatusOf(store[i]) == Success {
      var i :| i in store[h].herded && StatusOf(store[i]) == Success;
      assert i in flock && flock[i] == Success;
    }
  }

  // ---------------------------------------------------------------------------------------------
  // Wait conditions
  // ---------------------------------------------------------------------------------------------

  lemma SheepAreMembers(s: State, h: Id)
    requires Shape(s) && Indexed(s, {}) && h in s.live && IsHerder(s.store, h)
    ensures Sheep(s, h) == Members(s.store, h)
  {
    hide Pending, Coherent, StatusOf;
    assert HerdIndexed(s, {}, h);
  }

  /** While a herder lives, the statuses of instances of its herd that are waited for only advance,
      and none of them is lost nor comes in: the ids that are waited for are known ones. */
  lemma HerdAdvances(s: State, t: State, h: Id, ids: set<Id>)
    requires Inv(s, {}, false) && Inv(t, {}, false) && Progress(s, t)
    requires IsHerder(s.store, h) && h in t.live && forall i <- ids :: i < s.next
    ensures C.Advances(C.Awaited(ids, Herded(s, h)), C.Awaited(ids, Herded(t, h)))
  {
    hide *;
    InvShape(s, {}, false);
    InvShape(t, {}, false);
    HerdsParts(s, {}, false);
    HerdsParts(t, {}, false);
    StillThatHerd(s, t, h);
    SheepAreMembers(s, h);
    SheepAreMembers(t, h);
    SheepAdvance(s, t, h, ids);
  }

  lemma StillThatHerd(s: State, t: State, h: Id)
    requires Progress(s, t) && IsHerder(s.store, h) && h in t.live
    ensures h in s.live && IsHerder(t.store, h) && s.next <= t.next
  {
    hide StatusOf;
    assert Evolves(h, s.store[h], t.store[h]);
  }

  lemma SheepAdvance(s: State, t: State, h: Id, ids: set<Id>)
    requires Progress(s, t) && Sheep(s, h) == Members(s.store, h) && Sheep(t, h) == Members(t.store, h)
    requires forall i <- ids :: i < s.next
    ensures C.Advances(C.Awaited(ids, Herded(s, h)), C.Awaited(ids, Herded(t, h)))
  {
    hide StatusOf, Sheep;
    forall i <- ids ensures i in Members(s.store, h) <==> i in Members(t.store, h) {
      if i in s.store {
        assert Evolves(i, s.store[i], t.store[i]);
      }
    }
    forall i <- ids | i in Members(s.store, h) ensures CanBecome(StatusAt(s, i), StatusAt(t, i)) {
      assert Evolves(i, s.store[i], t.store[i]);
    }
  }

  /** The statuses of a herd in the successive states of a run. */
  ghost function HerdOver(s: State, events: seq<Event>, h: Id): (r: seq<C.Statuses>)
    requires Possible(s, events)
    ensures |r| == |events| + 1 && r[0] == Herded(s, h)
    decreases |events|
  {
    if events == [] then [Herded(s, h)] else [Herded(s, h)] + HerdOver(Apply(s, events[0]), events[1..], h)
  }

  lemma {:induction false} HerdHistory(s: State, events: seq<Event>, h: Id, ids: set<Id>)
    requires Inv(s, {}, false) && Possible(s, events) && IsHerder(s.store, h)
    requires h in After(s, events).live && forall i <- ids :: i < s.next
    ensures C.IsHistory(HerdOver(s, events, h), ids)
    decreases |events|
  {
    if events != [] {
      var t := Apply(s, events[0]);
      assert Possible(t, events[1..]) && Enabled(s, events[0]);
      assert After(s, events) == After(t, events[1..]);
      assert HerdOver(s, events, h) == [Herded(s, h)] + HerdOver(t, events[1..], h);
      ContinuesIsProgress(s, events[0]);
      hide *;
      ApplyKeeps(s, events[0], false);
      RunKeeps(t, events[1..], false);
      StillLive(s, t, After(t, events[1..]), h);
      HerdAdvances(s, t, h, ids);
      HerdHistory(t, events[1..], h, ids);
      LongerHistory(Herded(s, h), HerdOver(t, events[1..], h), ids);
    }
  }

  lemma StillLive(s: State, t: State, u: State, h: Id)
    requires Progress(s, t) && Progress(t, u) && IsHerder(s.store, h) && h in u.live
    ensures IsHerder(t.store, h) && h in t.live && s.next <= t.next
  {
    hide StatusOf, Evolves;
    assert h in t.store && h in t.live;
    StillThatHerd(s, t, h);
  }

  lemma LongerHistory(first: C.Statuses, rest: seq<C.Statuses>, ids: set<Id>)
    requires rest != [] && C.IsHistory(rest, ids) && C.Advances(C.Awaited(ids, first), C.Awaited(ids, rest[0]))
    ensures C.IsHistory([first] + rest, ids)
  {
    hide C.Advances, C.Awaited;
    var run := [first] + rest;
    forall k | 0 < k < |run| ensures C.Advances(C.Awaited(ids, run[k-1]), C.Awaited(ids, run[k])) {
      if k > 1 {
        assert run[k-1] == rest[k-2] && run[k] == rest[k-1];
      }
    }
  }

  /** Whatever happens between two moments of a run, a sheep planned with a wait on known instances,
      of its herd or not, and no cancel condition meets the same verdict whenever it is reevaluated. */
  lemma VerdictDoesNotDependOnTheSchedule(s: State, events: seq<Event>, h: Id, q: C.Condition, c: C.Condition,
                                          polls: set<nat>, others: set<nat>)
    requires Reached(s, false) && Possible(s, events) && h in s.store && s.store[h].herd == h
    requires h in After(s, events).live
    requires C.Guessable(q) && C.Empty(c) && forall i <- C.Wait(q).ids :: i < s.next
    requires var run := HerdOver(s, events, h);
             && C.Settle(q, C.Guess(q, c), run, polls) != C.Undecided
             && C.Settle(q, C.Guess(q, c), run, others) != C.Undecided
    ensures var run := HerdOver(s, events, h);
            C.Settle(q, C.Guess(q, c), run, polls) == C.Settle(q, C.Guess(q, c), run, others)
  {
    HerderOf(s.store, h);
    hide *;
    ReachedInv(s, false);
    HerdHistory(s, events, h, C.Wait(q).ids);
    C.VerdictDoesNotDependOnPolls(q, c, HerdOver(s, events, h), polls, others);
  }

  /** A planned sheep of a live herder that has started. */
  ghost predicate Waits(s: State, i: Id) {
    && i in s.store && StatusOf(s.store[i]) == Planned
    && s.store[i].herd in s.live && s.store[i].herd in s.store && Started(StatusOf(s.store[s.store[i].herd]))
  }

  /** The verdict on its two conditions in its herd. */
  ghost function VerdictOn(s: State, i: Id): C.Verdict
    requires i in s.store
  {
    C.Decide(s.store[i].queuewhen, s.store[i].cancelwhen, Herded(s, s.store[i].herd))
  }

  /** A reevaluation does what a verdict says. */
  ghost predicate Takes(s: State, i: Id, verdict: C.Verdict) {
    Reevaluate(s, i) == match verdict
                        case Enqueue => SchedulerModel.Enqueue(s, i)
                        case Cancel => SchedulerModel.Cancel(s, i)
                        case Undecided => s
  }

  /** The cancel condition was guessed from a wait on known instances. */
  ghost predicate Guessed(s: State, i: Id, c: C.Condition)
    requires i in s.store
  {
    var q := s.store[i].queuewhen;
    && C.Guessable(q) && C.Empty(c) && s.store[i].cancelwhen == C.Guess(q, c)
    && (forall j <- C.Wait(q).ids :: j < s.next) && IsHerder(s.store, s.store[i].herd)
  }

  lemma ReevaluateTakesVerdict(s: State, i: Id)
    requires Waits(s, i)
    ensures Takes(s, i, VerdictOn(s, i))
  {
    hide Herded, C.Holds, SchedulerModel.Enqueue, SchedulerModel.Cancel;
  }

  lemma VerdictStays(s: State, t: State, i: Id, c: C.Condition)
    requires i in s.store && Guessed(s, i, c) && VerdictOn(s, i) != C.Undecided
    requires Waits(s, i) && Waits(t, i) && Inv(s, {}, false) && Inv(t, {}, false) && Progress(s, t)
    ensures i in t.store && VerdictOn(t, i) == VerdictOn(s, i)
  {
    var q, h := s.store[i].queuewhen, s.store[i].herd;
    var run := [Herded(s, h), Herded(t, h)];
    assert Evolves(i, s.store[i], t.store[i]);
    assert h in t.live;
    hide *;
    HerdAdvances(s, t, h, C.Wait(q).ids);
    TwoMoments(run, C.Wait(q).ids);
    SameConditions(i, s.store[i], t.store[i]);
    C.DecisionLasts(q, c, run, 0, 1);
    VerdictIs(s, i);
    VerdictIs(t, i);
  }

  /** Between two moments of a run, be they within events, a sheep that waits keeps its verdict: what a
      reevaluation would have made of it at the first, queued or canceled, one at the second does. */
  lemma ReevaluatedAlike(s: State, t: State, i: Id, c: C.Condition)
    requires i in s.store && Guessed(s, i, c) && VerdictOn(s, i) != C.Undecided
    requires Waits(s, i) && Waits(t, i) && Inv(s, {}, false) && Inv(t, {}, false) && Progress(s, t)
    ensures Takes(s, i, VerdictOn(s, i)) && Takes(t, i, VerdictOn(s, i))
  {
    hide *;
    VerdictStays(s, t, i, c);
    ReevaluateTakesVerdict(s, i);
    ReevaluateTakesVerdict(t, i);
  }

  lemma VerdictIs(s: State, i: Id)
    requires i in s.store
    ensures VerdictOn(s, i) == C.Decide(s.store[i].queuewhen, s.store[i].cancelwhen, Herded(s, s.store[i].herd))
  {
    hide C.Decide, Herded;
  }

  lemma SameConditions(i: Id, a: Inst, b: Inst)
    requires Evolves(i, a, b)
    ensures b.herd == a.herd && b.queuewhen == a.queuewhen && b.cancelwhen == a.cancelwhen
  {
    hide StatusOf;
  }

  lemma TwoMoments(run: seq<C.Statuses>, ids: set<Id>)
    requires |run| == 2 && C.Advances(C.Awaited(ids, run[0]), C.Awaited(ids, run[1]))
    ensures C.IsHistory(run, ids)
  {
    hide C.Advances, C.Awaited;
  }

  // ---------------------------------------------------------------------------------------------
  // Slots, resources and queue
  // ---------------------------------------------------------------------------------------------

  /** The instances of a task that hold a slot. */
  ghost function Holding(store: Store, t: TaskId): set<Id> {
    set i | i in store && store[i].task == t && Active(StatusOf(store[i]))
  }

  /** How many times an instance of the task was finished again. */
  ghost function Again(store: Store, again: seq<Id>, t: TaskId): nat {
    if again == [] then 0
    else
      var last := again[|again|-1];
      Again(store, again[..|again|-1], t) + if last in store && store[last].task == t then 1 else 0
  }

  lemma TwiceOfTask(store: Store, again: seq<Id>, t: TaskId)
    ensures Twice(store, again, OfTask(t)) == Again(store, again, t)
  {
    if again != [] {
      TwiceOfTask(store, again[..|again|-1], t);
    }
  }

  lemma {:induction false} AgainIsZero(store: Store, again: seq<Id>, t: TaskId)
    ensures Again(store, again, t) == 0
       <==> forall k :: 0 <= k < |again| ==> again[k] in store ==> store[again[k]].task != t
  {
    if again != [] {
      AgainIsZero(store, again[..|again|-1], t);
      assert again == again[..|again|-1] + [again[|again|-1]];
    }
  }

  lemma TallyOfTask(store: Store, t: TaskId)
    ensures Tally(store, Active, OfTask(t)) == |Holding(store, t)|
  {
    TotalCounts(store.Keys, (i: nat) => if i in store then Part(store[i], Active, OfTask(t)) else 0,
                Holding(store, t));
  }

  /** The running count of a task is the number of its running and waiting instances, forced ones
      included, less those finished again: it is right exactly when no herder of the task was
      finished again. */
  lemma RunningCountIsRight(s: State, t: TaskId)
    requires Reached(s, true) && t in s.cfg.tasks
    ensures Get(s.count, t, 0) == |Holding(s.store, t)| - Again(s.store, s.again, t)
    ensures Get(s.count, t, 0) == |Holding(s.store, t)|
       <==> forall k :: 0 <= k < |s.again| ==> s.again[k] in s.store ==> s.store[s.again[k]].task != t
    ensures NoForce(s) ==> Get(s.count, t, 0) <= s.cfg.tasks[t].maxInstances
  {
    ReachedInv(s, true);
    assert Get(s.count, t, 0) + Twice(s.store, s.again, OfTask(t)) == Tally(s.store, Active, OfTask(t)) by {
      assert Slotted(s);
      hide Tally, Twice;
    }
    assert NoForce(s) ==> Get(s.count, t, 0) <= s.cfg.tasks[t].maxInstances by {
      assert Bounded(s);
      hide Tally;
    }
    hide *;
    TwiceOfTask(s.store, s.again, t);
    AgainIsZero(s.store, s.again, t);
    TallyOfTask(s.store, t);
  }

  /** What a host has in use of a resource is what the running and waiting instances that target it
      need of it, less what was given back again, and less what all the forced ones that ever started
      there need, which is given back without having been charged. Without forced instances it is never
      more than the host has. */
  lemma ResourcesInUse(s: State, h: HostId, k: Kind)
    requires Reached(s, true) && (h != "" || NoForce(s))
    ensures Used(s.used, h, k)
         == Tally(s.store, Active, OnHost(s.cfg, h, k)) - Twice(s.store, s.again, OnHost(s.cfg, h, k))
            - Tally(s.store, Every, Uncharged(s.cfg, h, k))
    ensures NoForce(s) ==> Tally(s.store, Every, Uncharged(s.cfg, h, k)) == 0
    ensures NoForce(s) && s.again == [] ==> Used(s.used, h, k) == Tally(s.store, Active, OnHost(s.cfg, h, k))
    ensures NoForce(s) ==> Used(s.used, h, k) <= Capacity(s.cfg, h, k)
  {
    ReachedInv(s, true);
    assert Balanced(s, h, k) by {
      assert Loaded(s);
      hide Balanced, NoForce;
    }
    assert NoForce(s) ==> Used(s.used, h, k) <= Capacity(s.cfg, h, k) by { assert Bounded(s); hide Tally, Used; }
    assert s.again == [] ==> Twice(s.store, s.again, OnHost(s.cfg, h, k)) == 0;
    hide *;
    if NoForce(s) {
      NothingUncharged(s, h, k);
    }
    assert Balanced(s, h, k);
    BalanceIs(s, h, k);
  }

  lemma BalanceIs(s: State, h: HostId, k: Kind)
    requires Balanced(s, h, k)
    ensures Used(s.used, h, k)
         == Tally(s.store, Active, OnHost(s.cfg, h, k)) - Twice(s.store, s.again, OnHost(s.cfg, h, k))
            - Tally(s.store, Every, Uncharged(s.cfg, h, k))
  {
    hide Tally, Twice, Used, OnHost, Uncharged;
  }

  lemma NothingUncharged(s: State, h: HostId, k: Kind)
    requires NoForce(s)
    ensures Tally(s.store, Every, Uncharged(s.cfg, h, k)) == 0
  {
    var weight := (i: nat) => if i in s.store then Part(s.store[i], Every, Uncharged(s.cfg, h, k)) else 0;
    TotalCounts(s.store.Keys, weight, {});
  }

  /** The instances of a task that are active on a host. */
  ghost function ActiveOn(store: Store, t: TaskId, h: HostId): set<Id> {
    set i | i in Holding(store, t) && i in store && store[i].target == h
  }

  lemma ActiveOnUses(store: Store, cfg: Config, t: TaskId, h: HostId, k: Kind)
    requires 1 <= Get(ResourcesOf(cfg, t), k, 0)
    ensures |ActiveOn(store, t, h)| <= Tally(store, Active, OnHost(cfg, h, k))
  {
    var those := ActiveOn(store, t, h);
    var one := (i: nat) => if i in those then 1 else 0;
    var weight := (i: nat) => if i in store then Part(store[i], Active, OnHost(cfg, h, k)) else 0;
    TotalCounts(store.Keys, one, those);
    hide StatusOf, ResourcesOf;
    TotalBounds(store.Keys, one, weight);
  }

  /** The resource that stands for maxperhost: a task that needs one of a resource of which each
      host has some number never has more instances active on one host. */
  lemma MaxPerHost(s: State, t: TaskId, h: HostId, k: Kind)
    requires Reached(s, true) && NoForce(s) && s.again == []
    requires 1 <= Get(ResourcesOf(s.cfg, t), k, 0)
    ensures |ActiveOn(s.store, t, h)| <= Capacity(s.cfg, h, k)
  {
    hide *;
    ResourcesInUse(s, h, k);
    ActiveOnUses(s.store, s.cfg, t, h, k);
  }

  lemma ActiveOnNeed(store: Store, cfg: Config, t: TaskId, h: HostId, k: Kind)
    requires t in cfg.tasks
    ensures |ActiveOn(store, t, h)| * Get(cfg.tasks[t].resources, k, 0) <= Tally(store, Active, OnHost(cfg, h, k))
  {
    var those, each := ActiveOn(store, t, h), Get(cfg.tasks[t].resources, k, 0);
    var some := (i: nat) => if i in those then each else 0;
    var weight := (i: nat) => if i in store then Part(store[i], Active, OnHost(cfg, h, k)) else 0;
    TotalOfAlike(store.Keys, some, those, each);
    hide StatusOf;
    TotalBounds(store.Keys, some, weight);
  }

  /** What the active instances of a task need of a resource on a host is never more than the host has. */
  lemma HostsAreNotOverloaded(s: State, t: TaskId, h: HostId, k: Kind)
    requires Reached(s, true) && NoForce(s) && s.again == [] && t in s.cfg.tasks
    ensures |ActiveOn(s.store, t, h)| * Get(s.cfg.tasks[t].resources, k, 0) <= Get(Get(s.cfg.hosts, h, map[]), k, 0)
  {
    CapacityIs(s.cfg, h, k);
    hide *;
    ResourcesInUse(s, h, k);
    ActiveOnNeed(s.store, s.cfg, t, h, k);
  }

  lemma CapacityIs(cfg: Config, h: HostId, k: Kind)
    ensures Capacity(cfg, h, k) == Get(Get(cfg.hosts, h, map[]), k, 0)
  {
  }

  lemma QueueIsBounded(s: State)
    requires Reached(s, true)
    ensures QueueSize(s) <= s.cfg.maxQueued
  {
    ReachedInv(s, true);
    assert Bounded(s);
    hide Tally, Reached, Inv, Herds, Books, QueueSize, NoForce;
    QueueSizeIsTally(s, {});
  }

  // ---------------------------------------------------------------------------------------------
  // Executors
  // ---------------------------------------------------------------------------------------------

  /** No executor is idle and at work, or at two places; the running map holds exactly the running
      instances. Whatever the reloads. */
  lemma ExecutorsAreExclusive(s: State)
    requires Reached(s, false)
    ensures forall i :: i in s.busy <==> i in s.store && StatusOf(s.store[i]) == Running
    ensures forall j, k :: 0 <= j < k < |s.idle| ==> s.idle[j] != s.idle[k]
    ensures forall i <- s.busy, j <- s.busy :: i != j ==> s.busy[i] != s.busy[j]
    ensures forall i <- s.busy :: s.busy[i] !in s.idle
  {
    ReachedInv(s, false);
    hide Reached, Inv, Herds, Books, StatusOf;
  }

  /** The executors that the reloads of a run should have removed and could not. */
  ghost function ExcusedIn(s: State, events: seq<Event>): nat
    requires Possible(s, events)
    decreases |events|
  {
    if events == [] then 0
    else
      (if events[0].ReloadEvent? then Excused(s, events[0].cfg.maxTotal) else 0)
      + ExcusedIn(Apply(s, events[0]), events[1..])
  }

  lemma {:induction false} ExcessAdds(s: State, events: seq<Event>)
    requires Inv(s, {}, false) && Possible(s, events)
    ensures Excess(After(s, events)) == Excess(s) + ExcusedIn(s, events)
    decreases |events|
  {
    if events != [] {
      var t := Apply(s, events[0]);
      assert Possible(t, events[1..]) && Enabled(s, events[0]);
      assert After(s, events) == After(t, events[1..]);
      assert ExcusedIn(s, events)
          == (if events[0].ReloadEvent? then Excused(s, events[0].cfg.maxTotal) else 0) + ExcusedIn(t, events[1..]);
      ContinuesExcess(s, events[0]);
      hide *;
      ApplyKeeps(s, events[0], false);
      ExcessAdds(t, events[1..]);
    }
  }

  lemma ContinuesExcess(s: State, e: Event)
    requires Enabled(s, e)
    ensures Continues(s, e) ==>
              Excess(Apply(s, e)) == Excess(s) + if e.ReloadEvent? then Excused(s, e.cfg.maxTotal) else 0
  {
    hide Apply, Permanent, Progress;
  }

  /** The permanent executors never fall below the configured maximum, and there are exactly that
      many when every reload found enough idle ones to remove. */
  lemma CrewIsKept(cfg: Config, up: set<HostId>, order: map<string, seq<HostId>>, events: seq<Event>)
    requires Possible(Initial(cfg, up, order), events)
    ensures var s := After(Initial(cfg, up, order), events);
            && Permanent(s) == s.cfg.maxTotal + ExcusedIn(Initial(cfg, up, order), events)
            && Permanent(s) >= s.cfg.maxTotal
  {
    assert forall s :: Excess(s) == Permanent(s) - s.cfg.maxTotal;
    hide *;
    InitialInv(cfg, up, order, false);
    ExcessAdds(Initial(cfg, up, order), events);
  }
}
