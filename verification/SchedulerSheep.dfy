/** How sheep are planned, reevaluated and stopped, told from the requests that ask for them. */
module SchedulerSheep {
  import opened TaskStatus
  import opened SchedulerModel
  import opened SchedulerInvariants
  import opened SchedulerHerds
  import opened SchedulerBooks
  import opened SchedulerSteps
  import opened SchedulerActions
  import opened SchedulerRuns
  import opened SchedulerTheorems
  import opened SchedulerQueue
  import C = Conditions

  // ---------------------------------------------------------------------------------------------
  // What a planned sheep waits for
  // ---------------------------------------------------------------------------------------------

  /** The wait of a request for a sheep; by default, that its parent has started. */
  function WaitOf(req: Request, parent: Id): C.Condition {
    if C.Empty(req.queuewhen) then C.TaskWait(C.AllStarted, {parent}) else req.queuewhen
  }

  /** The statuses of the awaited sheep of a herder. */
  ghost function AwaitedBy(store: Store, h: Id, ids: set<Id>): C.Statuses {
    map j | j in store && j in ids && store[j].herd == h && j != h :: StatusOf(store[j])
  }

  lemma SheepConditions(s: State, req: Request, herd: Id, parent: Id)
    requires Shape(s) && IsHerder(s.store, herd) && herd in s.live && herd in s.store
    ensures var t := Insert(s, req, herd, parent);
            && s.next in t.store && t.store[s.next].herd == herd && herd != s.next
            && t.store[s.next].queuewhen == WaitOf(req, parent)
            && t.store[s.next].cancelwhen
               == (if C.Empty(req.cancelwhen) then C.Guess(WaitOf(req, parent), req.cancelwhen) else req.cancelwhen)
  {
    var inst := NewInst(s.next, req, herd, true, parent);
    NewInstIsNewborn(s, req, herd, parent);
    EnterEffect(s, inst, herd, true);
    assert Insert(s, req, herd, parent) == Enter(s, inst, herd, true);
    assert herd != 0 by { hide Coherent, StatusOf; }
    hide Insert, Enter, C.Guess, C.Empty, Newborn, Coherent, StatusOf;
  }

  lemma SheepIsPlanned(s: State, req: Request, herd: Id, parent: Id, limbo: set<Id>, steady: bool)
    requires Inv(s, limbo, steady) && IsHerder(s.store, herd) && herd in s.live && Known(s, req)
    ensures var t := Plan(s, req, herd, parent);
            && s.next in t.store && t.store[s.next].herd == herd && herd != s.next
            && t.store[s.next].queuewhen == WaitOf(req, parent)
            && t.store[s.next].cancelwhen
               == (if C.Empty(req.cancelwhen) then C.Guess(WaitOf(req, parent), req.cancelwhen) else req.cancelwhen)
  {
    KnownIs(s, req);
    hide *;
    var t := Insert(s, req, herd, parent);
    var u := Trigger(t, s.next);
    InvShape(s, limbo, steady);
    HerderIn(s.store, herd);
    SheepConditions(s, req, herd, parent);
    InsertInv(s, req, herd, parent, limbo, steady);
    PlanCases(s, req, herd, parent);
    TriggerKeeps(t, s.next, limbo, steady);
    StillSheep(t, u, s.next);
    SoilStore(u, herd);
  }

  lemma StillSheep(s: State, t: State, i: Id)
    requires Later(s, t, {}) && i in s.store
    ensures i in t.store && t.store[i].herd == s.store[i].herd
    ensures t.store[i].queuewhen == s.store[i].queuewhen && t.store[i].cancelwhen == s.store[i].cancelwhen
  {
    assert Evolves(i, s.store[i], t.store[i]);
    hide StatusOf, Guarded;
  }

  lemma AwaitedAre(s: State, h: Id, ids: set<Id>)
    requires Inv(s, {}, false) && h in s.live && IsHerder(s.store, h)
    ensures C.Awaited(ids, Herded(s, h)) == AwaitedBy(s.store, h, ids)
  {
    InvShape(s, {}, false);
    HerdsParts(s, {}, false);
    SheepAreMembers(s, h);
    hide Inv, Herds, Books, Shape, Indexed, Sheep, StatusOf;
  }

  /** What a reevaluation makes of a sheep, when its cancel condition is left to be guessed: it is queued
      if the wait it was planned with is over, canceled if it never will be however the awaited sheep of
      its herd end, and left as it is otherwise. */
  ghost predicate DecidedBy(s: State, i: Id, wait: C.Condition)
    requires i in s.store && C.Guessable(wait)
  {
    var w := C.Wait(wait);
    var awaited := AwaitedBy(s.store, s.store[i].herd, w.ids);
    var verdict := if C.Meaning(w.op, awaited) then C.Enqueue
                   else if forall n: C.Statuses :: C.Outcome(awaited, n) ==> !C.Meaning(w.op, n) then C.Cancel
                   else C.Undecided;
    && VerdictOn(s, i) == verdict && Takes(s, i, verdict)
    && ((forall j <- awaited :: Finished(awaited[j])) ==> verdict != C.Undecided)
  }

  lemma GuessDecides(wait: C.Condition, c: C.Condition, herd: C.Statuses)
    requires C.Guessable(wait) && C.Empty(c)
    ensures var w := C.Wait(wait);
            var awaited := C.Awaited(w.ids, herd);
            C.Decide(wait, C.Guess(wait, c), herd)
            == if C.Meaning(w.op, awaited) then C.Enqueue
               else if forall n: C.Statuses :: C.Outcome(awaited, n) ==> !C.Meaning(w.op, n) then C.Cancel
               else C.Undecided
  {
    C.GuessedPair(wait, c, herd);
    C.ConjugateExactly(C.Wait(wait).op, C.Awaited(C.Wait(wait).ids, herd));
    hide C.Meaning, C.Guess, C.Guessable, C.Awaited, C.Outcome, C.Holds;
  }

  lemma AllFinishedIsOver(op: C.Operator, m: C.Statuses)
    requires op != C.UnknownOperator && (forall i <- m :: Finished(m[i])) && !C.Meaning(op, m)
    ensures forall n: C.Statuses :: C.Outcome(m, n) ==> !C.Meaning(op, n)
  {
    forall n: C.Statuses | C.Outcome(m, n) ensures !C.Meaning(op, n) {
      assert n == m;
    }
    hide C.Meaning;
  }

  lemma WaitIsKnown(wait: C.Condition)
    requires C.Guessable(wait)
    ensures C.Wait(wait).TaskWait? && C.Wait(wait).op != C.UnknownOperator
  {
  }

  lemma DecidedFrom(s: State, i: Id, wait: C.Condition, c: C.Condition)
    requires Inv(s, {}, false) && Waits(s, i) && C.Guessable(wait) && C.Empty(c)
    requires i in s.store && IsHerder(s.store, s.store[i].herd) && s.store[i].herd in s.live
    requires s.store[i].queuewhen == wait && s.store[i].cancelwhen == C.Guess(wait, c)
    ensures DecidedBy(s, i, wait)
  {
    hide Inv, Waits, IsHerder, C.Guess, C.Empty, C.Meaning, C.Outcome, C.Guessable, C.Decide, AwaitedBy, Herded,
         Takes, VerdictOn, C.Wait;
    WaitIsKnown(wait);
    var h := s.store[i].herd;
    var w := C.Wait(wait);
    AwaitedAre(s, h, w.ids);
    GuessDecides(wait, c, Herded(s, h));
    VerdictIs(s, i);
    ReevaluateTakesVerdict(s, i);
    var awaited := AwaitedBy(s.store, h, w.ids);
    if (forall j <- awaited :: Finished(awaited[j])) && !C.Meaning(w.op, awaited) {
      AllFinishedIsOver(w.op, awaited);
    }
  }

  /** A sheep that is planned without a cancel condition, in an event or within actions, is decided by its
      wait whenever it is reevaluated later. */
  lemma PlannedSheepIsDecided(s: State, req: Request, herd: Id, parent: Id, u: State, limbo: set<Id>, steady: bool)
    requires Inv(s, limbo, steady) && IsHerder(s.store, herd) && herd in s.live && Known(s, req)
    requires C.Guessable(WaitOf(req, parent)) && C.Empty(req.cancelwhen)
    requires Progress(Plan(s, req, herd, parent), u) && Inv(u, {}, false) && Waits(u, s.next)
    ensures s.next in u.store && DecidedBy(u, s.next, WaitOf(req, parent))
  {
    hide *;
    var t := Plan(s, req, herd, parent);
    SheepIsPlanned(s, req, herd, parent, limbo, steady);
    KeepsConditions(t, u, s.next);
    WaitingHerd(u, s.next);
    InvShape(u, {}, false);
    InstFacts(u, s.next, {}, false);
    DecidedFrom(u, s.next, WaitOf(req, parent), req.cancelwhen);
  }

  lemma KeepsConditions(s: State, t: State, i: Id)
    requires Progress(s, t) && i in s.store
    ensures i in t.store && t.store[i].herd == s.store[i].herd
    ensures t.store[i].queuewhen == s.store[i].queuewhen && t.store[i].cancelwhen == s.store[i].cancelwhen
  {
    assert Evolves(i, s.store[i], t.store[i]);
    hide StatusOf;
  }

  lemma WaitingHerd(s: State, i: Id)
    requires Waits(s, i)
    ensures i in s.store && s.store[i].herd in s.live && s.store[i].herd in s.store
  {
    hide StatusOf;
  }

  /** The same over a run: a request for a sheep of a live herder, whatever happens then. */
  lemma SheepOfRunIsDecided(s: State, req: Request, herd: Id, script: seq<seq<Request>>, events: seq<Event>)
    requires Reached(s, false) && herd in s.live && herd in s.store && s.store[herd].herd == herd && Known(s, req)
    requires C.Guessable(WaitOf(req, 0)) && C.Empty(req.cancelwhen)
    requires Enabled(s, PlanEvent(req, herd, script)) && Possible(Apply(s, PlanEvent(req, herd, script)), events)
    requires Waits(After(Apply(s, PlanEvent(req, herd, script)), events), s.next)
    ensures var u := After(Apply(s, PlanEvent(req, herd, script)), events);
            s.next in u.store && DecidedBy(u, s.next, WaitOf(req, 0))
  {
    var e := PlanEvent(req, herd, script);
    var w := s.(script := script);
    assert Apply(s, e) == Plan(w, req, herd, 0) by { hide Plan; }
    assert Known(w, req) && w.next == s.next && w.live == s.live && w.store == s.store;
    assert IsHerder(w.store, herd);
    hide *;
    ReachedInv(s, false);
    Scripted(s, script, false);
    ApplyKeeps(s, e, false);
    RunKeeps(Apply(s, e), events, false);
    PlannedSheepIsDecided(w, req, herd, 0, After(Apply(s, e), events), {}, false);
  }

  /** A cancel condition that is given is kept, and so is the wait. */
  lemma GivenConditionsAreKept(s: State, req: Request, herd: Id, parent: Id, u: State, limbo: set<Id>, steady: bool)
    requires Inv(s, limbo, steady) && IsHerder(s.store, herd) && herd in s.live && Known(s, req)
    requires !C.Empty(req.cancelwhen)
    requires Progress(Plan(s, req, herd, parent), u) && Inv(u, {}, false) && Waits(u, s.next)
    ensures Takes(u, s.next, if C.Holds(WaitOf(req, parent), Herded(u, herd)) then C.Enqueue
                             else if C.Holds(req.cancelwhen, Herded(u, herd)) then C.Cancel
                             else C.Undecided)
  {
    hide C.Holds, Inv, Known, Progress, Waits, Takes, Plan, WaitOf, Herded, IsHerder, VerdictOn;
    var t := Plan(s, req, herd, parent);
    SheepIsPlanned(s, req, herd, parent, limbo, steady);
    KeepsConditions(t, u, s.next);
    VerdictIs(u, s.next);
    ReevaluateTakesVerdict(u, s.next);
  }

  // ---------------------------------------------------------------------------------------------
  // What a reevaluation does
  // ---------------------------------------------------------------------------------------------

  lemma StillWaits(s: State, t: State, i: Id, j: Id, c: C.Condition)
    requires Shape(s) && Later(s, t, {j}) && i != j && Waits(s, i) && Guessed(s, i, c)
    requires i in s.store && s.store[i].herd in t.live
    ensures Waits(t, i) && i in t.store && Guessed(t, i, c) && t.store[i].herd == s.store[i].herd
  {
    var h := s.store[i].herd;
    assert Evolves(i, s.store[i], t.store[i]) && Evolves(h, s.store[h], t.store[h]) && Guarded(s, i);
    hide StatusOf, C.Guess, Shape, C.Guessable;
  }

  lemma LiveBefore(s: State, t: State, h: Id)
    requires Progress(s, t) && h in s.store && h in t.live
    ensures h in s.live
  {
    hide StatusOf, Evolves;
  }

  lemma ReevaluateLater(s: State, i: Id, steady: bool)
    requires Inv(s, {}, steady) && i in s.store
    ensures Later(s, Reevaluate(s, i), {i})
  {
    hide *;
    InvShape(s, {}, steady);
    ReevaluateCases(s, i);
    CancelKeeps(s, i, {}, steady);
    SameIsLater(s, i);
    if Guarded(s, i) {
      EnqueueKeeps(s, i, {}, steady);
    }
  }

  lemma SameIsLater(s: State, i: Id)
    ensures Later(s, s, {i})
  {
    LaterSame(s, s);
    LaterWeaken(s, s, {}, {i});
    hide Later;
  }

  lemma TakesCancel(s: State, i: Id, steady: bool)
    requires Inv(s, {}, steady) && Waits(s, i) && Takes(s, i, C.Cancel) && i in s.store && s.store[i].herd != i
    ensures Reevaluate(s, i) == SchedulerModel.Cancel(s, i) == DropSheep(s, i, false) && Unready(s.store, i)
  {
    assert Unready(s.store, i);
    CancelCases(s, i);
    hide Inv, DropSheep, SchedulerModel.Cancel, SchedulerModel.Enqueue, Reevaluate, StatusOf, StopHerder, CancelHerd;
  }

  lemma DropCancels(s: State, i: Id, steady: bool)
    requires Inv(s, {}, steady) && i in s.store && s.store[i].herd != i && Unready(s.store, i)
    ensures var t := DropSheep(s, i, false);
            i in t.store && StatusOf(t.store[i]) == Canceled && t.store[i].herd == s.store[i].herd
  {
    hide *;
    var c := Close(s, i, false);
    DropSheepIsRelease(s, i);
    InvShape(s, {}, steady);
    InstFacts(s, i, {}, steady);
    CloseSheepInv(s, i, false, {}, steady);
    assert {} + {i} == {i};
    ClosedIsCanceled(s, i);
    ReleaseInv(c, i, {i}, steady);
    CanceledStays(c, Release(Forget(c, i), i), i);
  }

  lemma DropSheepIsRelease(s: State, i: Id)
    ensures DropSheep(s, i, false) == Release(Forget(Close(s, i, false), i), i)
  {
    hide Release, Forget, Close;
  }

  lemma ClosedIsCanceled(s: State, i: Id)
    requires i in s.store && Coherent(s.store[i]) && !s.store[i].started
    ensures var c := Close(s, i, false);
            i in c.store && StatusOf(c.store[i]) == Canceled && c.store[i].herd == s.store[i].herd
  {
    ClosedEffect(s, i, false);
    CloseEffect(s, i, false);
    hide Close, Closed, Coherent, StatusOf;
  }

  lemma CanceledStays(s: State, t: State, i: Id)
    requires Later(s, t, {}) && i in s.store && s.store[i].herd != i && StatusOf(s.store[i]) == Canceled
    ensures i in t.store && StatusOf(t.store[i]) == Canceled && t.store[i].herd == s.store[i].herd
  {
    assert Evolves(i, s.store[i], t.store[i]);
    hide StatusOf, Guarded;
  }

  lemma CanceledForEver(s: State, t: State, i: Id)
    requires Follows(s, t) && i in s.store && s.store[i].herd != i && StatusOf(s.store[i]) == Canceled
    ensures i in t.store && StatusOf(t.store[i]) == Canceled
  {
    FollowsIsProgress(s, t);
    hide Follows;
    assert Evolves(i, s.store[i], t.store[i]);
    hide StatusOf;
  }

  lemma NotItsOwnHerder(s: State, i: Id)
    requires Waits(s, i)
    ensures i in s.store && s.store[i].herd != i
  {
  }

  /** A sheep of a marked herd whose wait can never be over is canceled by the reevaluation, whatever its
      turn brings about before. */
  lemma {:induction false} ReevaluateAllCancels(s: State, ids: seq<Id>, dirty: set<Id>, i: Id, c: C.Condition)
    requires Inv(s, {}, false) && Waits(s, i) && i in s.store && Guessed(s, i, c) && VerdictOn(s, i) == C.Cancel
    requires i in ids && s.store[i].herd in dirty && s.store[i].herd in ReevaluateAll(s, ids, dirty).live
    ensures var t := ReevaluateAll(s, ids, dirty); i in t.store && StatusOf(t.store[i]) == Canceled
    decreases |ids|
  {
    hide *;
    var t := ReevaluateAll(s, ids, dirty);
    ReevaluateAllCases(s, ids, dirty);
    NotItsOwnHerder(s, i);
    WaitingHerd(s, i);
    if ids[0] == i {
      DataIs(s, i);
      ReevaluateTakesVerdict(s, i);
      TakesCancel(s, i, false);
      DropCancels(s, i, false);
      ReevaluateKeeps(s, i, false);
      ReevaluateAllKeeps(Reevaluate(s, i), ids[1..], dirty, false);
      CanceledForEver(Reevaluate(s, i), t, i);
    } else if ids[0] in s.store && Data(s, ids[0]).herd in dirty {
      var u := Reevaluate(s, ids[0]);
      InvShape(s, {}, false);
      ReevaluateKeeps(s, ids[0], false);
      ReevaluateLater(s, ids[0], false);
      ReevaluateAllKeeps(u, ids[1..], dirty, false);
      FollowsIsProgress(s, u);
      FollowsIsProgress(u, t);
      StillThere(s, u, {ids[0]}, s.store[i].herd);
      LiveBefore(u, t, s.store[i].herd);
      StillWaits(s, u, i, ids[0], c);
      VerdictStays(s, u, i, c);
      ReevaluateAllCancels(u, ids[1..], dirty, i, c);
    } else {
      ReevaluateAllCancels(s, ids[1..], dirty, i, c);
    }
  }

  /** What a reevaluation of the marked herds comes to. */
  ghost function Reevaluated(s: State, script: seq<seq<Request>>): State {
    ReevaluateAll(s.(script := script, dirty := {}), Ascending(s.live, s.next), s.dirty)
  }

  lemma ReevaluatedIs(s: State, script: seq<seq<Request>>)
    ensures Apply(s, ReevaluateEvent(script)) == Reevaluated(s, script)
    ensures Reevaluated(s, script)
         == ReevaluateAll(s.(script := script, dirty := {}), Ascending(s.live, s.next), s.dirty)
  {
    hide ReevaluateAll, Ascending;
  }

  /** In a reevaluation, a planned sheep of a marked herd that lives on is canceled if its wait can never
      be over. */
  lemma HopelessSheepIsCanceled(s: State, script: seq<seq<Request>>, i: Id, c: C.Condition)
    requires Inv(s, {}, false) && Waits(s, i) && i in s.store && Guessed(s, i, c) && VerdictOn(s, i) == C.Cancel
    requires s.store[i].herd in s.dirty && s.store[i].herd in Reevaluated(s, script).live
    ensures i in Reevaluated(s, script).store && StatusOf(Reevaluated(s, script).store[i]) == Canceled
  {
    hide *;
    var w := s.(script := script, dirty := {});
    NothingElse(s, script);
    ReevaluatedIs(s, script);
    AsideKeeps(s, w, false);
    WaitingIsListed(s, i);
    SameWait(s, w, i, c);
    ReevaluateAllCancels(w, Ascending(s.live, s.next), s.dirty, i, c);
  }

  lemma NothingElse(s: State, script: seq<seq<Request>>)
    ensures var w := s.(script := script, dirty := {}); SameHerds(s, w) && SameBooks(s, w)
  {
  }

  lemma SameWait(s: State, w: State, i: Id, c: C.Condition)
    requires Waits(s, i) && i in s.store && Guessed(s, i, c)
    requires w == s.(script := w.script, dirty := w.dirty)
    ensures Waits(w, i) && i in w.store && Guessed(w, i, c) && VerdictOn(w, i) == VerdictOn(s, i)
  {
    assert Herded(w, s.store[i].herd) == Herded(s, s.store[i].herd);
    hide Herded, C.Decide, C.Guess, StatusOf;
  }

  lemma WaitingIsListed(s: State, i: Id)
    requires Inv(s, {}, false) && Waits(s, i)
    ensures i in Ascending(s.live, s.next)
  {
    InvShape(s, {}, false);
    InstFacts(s, i, {}, false);
    hide Inv, Herds, Books, Coherent, Ascending;
  }
}
