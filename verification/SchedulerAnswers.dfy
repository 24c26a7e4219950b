/** Actions that answer alike: within an event, the plan actions of all instances of a task ask for the
    same, and so do the finish actions of those that are canceled. Then no cancellation that makes room
    for an arriving instance brings in another one that would make room again: it would never end. */
module SchedulerAnswers {
  import opened TaskStatus
  import opened SchedulerModel
  import opened SchedulerInvariants
  import opened SchedulerHerds
  import opened SchedulerBooks
  import opened SchedulerSteps
  import opened SchedulerActions
  import opened SchedulerRuns
  import opened SchedulerTheorems
  import opened SchedulerQueue
  import opened SchedulerLines
  import opened SchedulerForce
  import opened SchedulerShelter
  import opened SchedulerAgain
  import opened SchedulerCancel

  // ---------------------------------------------------------------------------------------------
  // Answers
  // ---------------------------------------------------------------------------------------------

  /** What the actions of the instances of each task ask for when they are planned, and when they end
      without having started. */
  datatype Answers = Answers(onPlan: TaskId -> seq<Request>, onCancel: TaskId -> seq<Request>)

  /** Actions answer as they should, and those of the instances they plan and cancel in turn; when the
      script is over, actions ask for nothing. */
  ghost predicate Answered(s: State, i: Id, answer: seq<Request>, act: Answers)
    decreases |s.script|, 0, 0
  {
    if s.script == [] then answer == []
    else s.script[0] == answer && PlanAllAlike(s.(script := s.script[1..]), s.script[0], i, act)
  }

  ghost predicate PlanAllAlike(s: State, reqs: seq<Request>, i: Id, act: Answers)
    decreases |s.script|, 7, |reqs|
  {
    reqs != [] ==>
      var herd := HerdFor(s, reqs[0], i);
      PlanAlike(s, reqs[0], herd, i, act) && PlanAllAlike(Plan(s, reqs[0], herd, i), reqs[1..], i, act)
  }

  ghost predicate PlanAlike(s: State, req: Request, herd: Id, parent: Id, act: Answers)
    decreases |s.script|, 6, 0
  {
    Known(s, req) ==>
      var t := Insert(s, req, herd, parent);
      && Answered(t, s.next, act.onPlan(req.task), act)
      && (!(herd in s.live && herd in s.store) ==> EnqueueAlike(Trigger(t, s.next), s.next, act))
  }

  ghost predicate EnqueueAlike(s: State, i: Id, act: Answers)
    decreases |s.script|, 5, 0
  {
    if Data(s, i).force then true
    else if Data(s, i).task !in s.enabled then CancelAlike(s, i, act)
    else if MaxQueued(s, i) == 0 then true
    else CancelAllAlike(s, Surplus(Duplicates(s, i), MaxQueued(s, i), KeepLast(s, i)), act)
  }

  ghost predicate CancelAllAlike(s: State, ids: seq<Id>, act: Answers)
    decreases |s.script|, 4, |ids|
  {
    ids != [] ==> CancelAlike(s, ids[0], act) && CancelAllAlike(Cancel(s, ids[0]), ids[1..], act)
  }

  ghost predicate CancelAlike(s: State, i: Id, act: Answers)
    decreases |s.script|, 3, 0
  {
    Cancelable(s, i) && Data(s, i).herd == i ==> StopHerderAlike(CancelHerd(s, i), i, act)
  }

  /** A herder that has started may answer anything when it stops. */
  ghost predicate StopHerderAlike(s: State, h: Id, act: Answers)
    decreases |s.script|, 2, 0
  {
    if StatusAt(s, h) == Canceled then true
    else if Data(s, h).started then Inside(Watch(s, h), h, act)
    else Answered(Watch(s, h), h, act.onCancel(Data(s, h).task), act)
  }

  /** Actions answer anything, but those of the instances they plan and cancel in turn as they should. */
  ghost predicate Inside(s: State, i: Id, act: Answers)
    decreases |s.script|, 1, 0
  {
    s.script != [] ==> PlanAllAlike(s.(script := s.script[1..]), s.script[0], i, act)
  }

  // ---------------------------------------------------------------------------------------------
  // What may come again
  // ---------------------------------------------------------------------------------------------

  /** Places in the running of the actions: an instance of a task is planned, or one that arrives makes
      the queued instances of its task and criterion go. */
  datatype Place = PlanOf(task: TaskId) | QueueOf(task: TaskId, criterion: string)

  function AnswerAt(act: Answers, p: Place): seq<Request> {
    match p
    case PlanOf(t) => act.onPlan(t)
    case QueueOf(t, _) => act.onCancel(t)
  }

  /** A request leads to one of some places. */
  predicate Leads(s: State, places: set<Place>, r: Request) {
    Known(s, r) && (PlanOf(r.task) in places || (r.lone && QueueOf(r.task, r.criterion) in places))
  }

  ghost predicate LeadsFrom(s: State, act: Answers, places: set<Place>, p: Place) {
    exists r <- AnswerAt(act, p) :: Leads(s, places, r)
  }

  /** If a place comes again then all of some places lead to some of them, and so on without end. */
  ghost predicate Closes(s: State, act: Answers, places: set<Place>, p: Place) {
    forall more: set<Place> | places <= more && p in more :: forall q <- places :: LeadsFrom(s, act, more, q)
  }

  ghost predicate RequestCloses(s: State, act: Answers, places: set<Place>, r: Request) {
    Known(s, r) ==>
      && Closes(s, act, places, PlanOf(r.task))
      && (r.lone ==> Closes(s, act, places, QueueOf(r.task, r.criterion)))
  }

  lemma NothingCloses(s: State, act: Answers, p: Place)
    ensures Closes(s, act, {}, p)
  {
  }

  lemma NothingRequestCloses(s: State, act: Answers)
    ensures forall r: Request :: RequestCloses(s, act, {}, r) && !Leads(s, {}, r)
  {
    forall r: Request ensures RequestCloses(s, act, {}, r) && !Leads(s, {}, r) {
      NothingCloses(s, act, PlanOf(r.task));
      NothingCloses(s, act, QueueOf(r.task, r.criterion));
    }
    hide Closes;
  }

  /** One place further, what the actions there ask for closes as well. */
  lemma OnePlaceFurther(s: State, act: Answers, places: set<Place>, p: Place)
    requires Closes(s, act, places, p)
    ensures forall r <- AnswerAt(act, p) :: RequestCloses(s, act, places + {p}, r)
  {
    hide AnswerAt;
    forall r <- AnswerAt(act, p) ensures RequestCloses(s, act, places + {p}, r) {
      if Known(s, r) {
        FurtherTo(s, act, places, p, r, PlanOf(r.task));
        if r.lone {
          FurtherTo(s, act, places, p, r, QueueOf(r.task, r.criterion));
        }
      }
      hide Closes;
    }
  }

  lemma FurtherTo(s: State, act: Answers, places: set<Place>, p: Place, r: Request, next: Place)
    requires Closes(s, act, places, p) && r in AnswerAt(act, p) && Known(s, r)
    requires next == PlanOf(r.task) || (r.lone && next == QueueOf(r.task, r.criterion))
    ensures Closes(s, act, places + {p}, next)
  {
    hide AnswerAt, Known;
    forall more: set<Place> | places + {p} <= more && next in more
      ensures forall q <- places + {p} :: LeadsFrom(s, act, more, q)
    {
      assert places <= more && p in more;
      assert Leads(s, more, r);
      assert LeadsFrom(s, act, more, p);
      hide LeadsFrom;
    }
  }

  /** A place that closes does not come again when what is asked for there leads nowhere back. */
  lemma DoesNotComeAgain(s: State, act: Answers, places: set<Place>, p: Place)
    requires Closes(s, act, places, p) && forall r <- AnswerAt(act, p) :: !Leads(s, places + {p}, r)
    ensures p !in places
  {
    assert p in places ==> places + {p} == places;
    assert p in places ==> LeadsFrom(s, act, places + {p}, p);
  }

  lemma ClosesStays(s: State, t: State, act: Answers, places: set<Place>, p: Place)
    requires t.cfg == s.cfg && t.enabled == s.enabled
    ensures Closes(t, act, places, p) <==> Closes(s, act, places, p)
    ensures forall r: Request :: Known(t, r) <==> Known(s, r)
  {
    forall more: set<Place>, q: Place ensures LeadsFrom(t, act, more, q) <==> LeadsFrom(s, act, more, q) {
      forall r: Request ensures Leads(t, more, r) <==> Leads(s, more, r) {
      }
      hide Leads, AnswerAt;
    }
    hide LeadsFrom;
  }

  lemma RequestsStay(s: State, t: State, act: Answers, places: set<Place>)
    requires t.cfg == s.cfg && t.enabled == s.enabled
    ensures forall r: Request :: RequestCloses(t, act, places, r) <==> RequestCloses(s, act, places, r)
    ensures forall r: Request, ps: set<Place> :: Leads(t, ps, r) <==> Leads(s, ps, r)
  {
    forall r: Request ensures RequestCloses(t, act, places, r) <==> RequestCloses(s, act, places, r) {
      ClosesStays(s, t, act, places, PlanOf(r.task));
      ClosesStays(s, t, act, places, QueueOf(r.task, r.criterion));
      hide Closes, Known;
    }
    hide RequestCloses, Closes;
  }

  // ---------------------------------------------------------------------------------------------
  // Queues that are full
  // ---------------------------------------------------------------------------------------------

  /** The queued instance with the lowest id is a herder. */
  ghost predicate HerderFirst(store: Store, t: TaskId, criterion: string) {
    exists h :: h in Kin(store, t, criterion) && IsHerder(store, h) && forall j <- Kin(store, t, criterion) :: h <= j
  }

  /** Another instance that arrives makes room, or goes: a herder first. */
  ghost predicate Full(s: State, p: Place) {
    match p
    case PlanOf(_) => true
    case QueueOf(t, criterion) =>
      && t in s.cfg.tasks && 0 < s.cfg.tasks[t].maxQueued <= |Kin(s.store, t, criterion)|
      && (s.cfg.tasks[t].keepLast ==> HerderFirst(s.store, t, criterion))
  }

  ghost predicate AllFull(s: State, places: set<Place>) {
    forall p <- places :: Full(s, p)
  }

  ghost predicate SameKin(s: State, t: State, places: set<Place>) {
    forall p <- places | p.QueueOf? :: Kin(t.store, p.task, p.criterion) == Kin(s.store, p.task, p.criterion)
  }

  /** Tasks that keep the last instances, do not wait for sheep and are within their limits. */
  ghost predicate Fit(s: State, us: set<TaskId>) {
    forall u <- us :: KeepsLast(s.cfg, u) && s.cfg.tasks[u].policy == NoWait
                   && forall c :: |Kin(s.store, u, c)| <= s.cfg.tasks[u].maxQueued
  }

  ghost predicate Ready(s: State, places: set<Place>, us: set<TaskId>, limbo: set<Id>, steady: bool) {
    Inv(s, limbo, steady) && Settled(s, limbo) && AllFull(s, places) && Fit(s, us)
  }

  ghost predicate Holds(s: State, t: State, places: set<Place>, us: set<TaskId>) {
    SameKin(s, t, places) && Fit(t, us)
  }

  /** A herder that stays as it is: planned, or queued where instances are made to go. */
  ghost predicate Anchored(s: State, h: Id, places: set<Place>) {
    && IsHerder(s.store, h)
    && (|| StatusOf(s.store[h]) == Planned
        || (StatusOf(s.store[h]) == Queued && QueueOf(s.store[h].task, s.store[h].criterion) in places))
  }

  lemma ReadyParts(s: State, places: set<Place>, us: set<TaskId>, limbo: set<Id>, steady: bool)
    ensures Ready(s, places, us, limbo, steady)
       <==> Inv(s, limbo, steady) && Settled(s, limbo) && AllFull(s, places) && Fit(s, us)
  {
    hide Inv, Settled, AllFull, Fit;
  }

  lemma HoldsParts(s: State, t: State, places: set<Place>, us: set<TaskId>)
    ensures Holds(s, t, places, us) <==> SameKin(s, t, places) && Fit(t, us)
  {
    hide SameKin, Fit;
  }

  lemma FullStays(s: State, t: State, except: set<Id>, places: set<Place>)
    requires Later(s, t, except) && SameKin(s, t, places) && AllFull(s, places)
    ensures AllFull(t, places)
  {
    forall p <- places ensures Full(t, p) {
      assert Full(s, p);
      if p.QueueOf? {
        assert Kin(t.store, p.task, p.criterion) == Kin(s.store, p.task, p.criterion);
        if s.cfg.tasks[p.task].keepLast {
          HerderFirstStays(s, t, except, p.task, p.criterion);
        }
      }
      hide *;
    }
    hide *;
  }

  lemma HerderFirstStays(s: State, t: State, except: set<Id>, task: TaskId, criterion: string)
    requires Later(s, t, except) && HerderFirst(s.store, task, criterion)
    requires Kin(t.store, task, criterion) == Kin(s.store, task, criterion)
    ensures HerderFirst(t.store, task, criterion)
  {
    var h :| h in Kin(s.store, task, criterion) && IsHerder(s.store, h)
             && forall j <- Kin(s.store, task, criterion) :: h <= j;
    hide Later, Kin, IsHerder;
    StillHerder(s, t, except, h);
  }

  /** What is left when time passes and the queues stay as they are. */
  lemma ReadyStays(s: State, t: State, except: set<Id>, places: set<Place>, us: set<TaskId>,
                   limbo: set<Id>, steady: bool)
    requires Ready(s, places, us, limbo, steady) && Later(s, t, except) && Inv(t, limbo, steady)
    requires Holds(s, t, places, us)
    ensures Ready(t, places, us, limbo, steady) && t.cfg == s.cfg && t.enabled == s.enabled
  {
    hide *;
    ReadyParts(s, places, us, limbo, steady);
    HoldsParts(s, t, places, us);
    SettledStays(s, t, limbo, except);
    FullStays(s, t, except, places);
    ReadyParts(t, places, us, limbo, steady);
    SameConfig(s, t, except);
    SameEnabled(s, t, except);
  }

  lemma AnchoredStays(s: State, t: State, h: Id, places: set<Place>)
    requires Shape(s) && Later(s, t, {}) && SameKin(s, t, places) && Anchored(s, h, places)
    ensures Anchored(t, h, places) && IsHerder(s.store, h)
  {
    StillHerder(s, t, {}, h);
    assert Evolves(h, s.store[h], t.store[h]);
    if StatusOf(s.store[h]) == Planned {
      assert Guarded(s, h);
    } else {
      var p := QueueOf(s.store[h].task, s.store[h].criterion);
      assert p in places && h in Kin(s.store, p.task, p.criterion);
      assert h in Kin(t.store, p.task, p.criterion);
    }
    hide StatusOf, Shape, SameKin;
  }

  lemma AnchoredWider(s: State, h: Id, places: set<Place>, more: set<Place>)
    requires Anchored(s, h, places) && places <= more
    ensures Anchored(s, h, more)
  {
    hide StatusOf;
  }

  lemma AnchoredIsLive(s: State, h: Id, places: set<Place>, limbo: set<Id>, steady: bool)
    requires Inv(s, limbo, steady) && Anchored(s, h, places)
    ensures h in s.live && h in s.store && h != 0 && IsHerder(s.store, h) && Unready(s.store, h)
  {
    assert h in s.store && Unready(s.store, h) && IsHerder(s.store, h);
    hide Anchored, StatusOf, Unready;
    InvShape(s, limbo, steady);
    hide Inv;
    InstFacts(s, h, limbo, steady);
    assert 0 < h by { hide Herds, Coherent; }
    hide Herds, Shape, Coherent;
  }

  lemma FitLine(s: State, t: State, gone: set<Id>, us: set<TaskId>)
    requires Fit(s, us) && KeepsLine(s.store, t.store, gone) && t.cfg == s.cfg
    ensures Fit(t, us)
  {
    hide KeepsLine, Kin, KeepsLast;
    forall u, c ensures |Kin(t.store, u, c)| <= |Kin(s.store, u, c)| {
      LineKin(s.store, t.store, gone, u, c);
      SmallerSet(Kin(t.store, u, c), Kin(s.store, u, c));
    }
  }

  lemma LineSameKin(s: State, t: State, places: set<Place>)
    requires KeepsLine(s.store, t.store, {})
    ensures SameKin(s, t, places)
  {
    hide KeepsLine, Kin;
    forall p <- places | p.QueueOf? ensures Kin(t.store, p.task, p.criterion) == Kin(s.store, p.task, p.criterion) {
      LineKin(s.store, t.store, {}, p.task, p.criterion);
    }
  }

  /** Nobody joins or leaves a queue. */
  lemma LineHolds(s: State, t: State, places: set<Place>, us: set<TaskId>)
    requires KeepsLine(s.store, t.store, {}) && t.cfg == s.cfg && Fit(s, us)
    ensures Holds(s, t, places, us)
  {
    hide *;
    LineSameKin(s, t, places);
    FitLine(s, t, {}, us);
    HoldsParts(s, t, places, us);
  }

  lemma SameStoreHolds(s: State, t: State, places: set<Place>, us: set<TaskId>)
    requires t.store == s.store && t.cfg == s.cfg && Fit(s, us)
    ensures Holds(s, t, places, us)
  {
    hide *;
    LineItself(s.store);
    LineHolds(s, t, places, us);
  }

  lemma HoldsTrans(s: State, t: State, u: State, places: set<Place>, us: set<TaskId>)
    requires Holds(s, t, places, us) && Holds(t, u, places, us)
    ensures Holds(s, u, places, us)
  {
    hide Kin, Fit;
  }

  lemma HoldsNarrower(s: State, t: State, places: set<Place>, fewer: set<Place>, us: set<TaskId>)
    requires Holds(s, t, places, us) && fewer <= places
    ensures Holds(s, t, fewer, us)
  {
    hide Kin, Fit;
  }

  /** A new instance is planned, and in no queue. */
  lemma InsertHolds(s: State, req: Request, herd: Id, parent: Id, places: set<Place>, us: set<TaskId>)
    requires Shape(s) && (herd == 0 || IsHerder(s.store, herd)) && Fit(s, us)
    ensures Holds(s, Insert(s, req, herd, parent), places, us)
  {
    var t := Insert(s, req, herd, parent);
    InsertKin(s, req, herd, parent);
    InsertTask(s, req, herd, parent);
    hide Insert, Kin, KeepsLast, Shape, IsHerder;
  }

  lemma InsertKin(s: State, req: Request, herd: Id, parent: Id)
    requires Shape(s) && (herd == 0 || IsHerder(s.store, herd))
    ensures forall t, c :: Kin(Insert(s, req, herd, parent).store, t, c) == Kin(s.store, t, c)
  {
    InsertEffect(s, req, herd, parent);
    hide Insert, StatusOf, Shape, IsHerder, SameSetting;
    var u := Insert(s, req, herd, parent);
    forall t, c ensures Kin(u.store, t, c) == Kin(s.store, t, c) {
      forall i ensures i in Kin(u.store, t, c) <==> i in Kin(s.store, t, c) {
        if i in s.store {
          assert SameButHerded(s.store[i], u.store[i]);
        }
      }
    }
  }

  lemma ForceBefore(s: State, t: State, except: set<Id>)
    requires Later(s, t, except) && NoForce(t)
    ensures NoForce(s)
  {
    hide *;
    assert Unforced(Refusing, t) by { RefusingForce(t); }
    UnforcedBefore(s, t, except, Refusing);
    RefusingForce(s);
  }

  lemma RefusingForce(s: State)
    ensures Unforced(Refusing, s) <==> NoForce(s)
  {
    hide NoForce;
  }

  // ---------------------------------------------------------------------------------------------
  // Those that go, one after the other
  // ---------------------------------------------------------------------------------------------

  /** They are the lowest ids of a set, in order. */
  ghost predicate Lowest(kin: set<Id>, ids: seq<Id>) {
    forall m :: 0 <= m < |ids| ==> ids[m] in kin && forall j <- kin :: ids[m] <= j || j in ids[..m]
  }

  /** For a task that keeps the last instances: the lowest ids go, lowest first, or a herder that was to
      go already stays first in the queue. */
  ghost predicate Front(store: Store, ids: seq<Id>, t: TaskId, criterion: string) {
    var kin := Kin(store, t, criterion);
    || Lowest(kin, ids)
    || (exists h :: h in kin && IsHerder(store, h) && h !in ids && forall j <- kin :: h <= j)
  }

  /** Queued instances of a task and criterion, and maybe the arriving one. */
  ghost predicate Leaving(s: State, ids: seq<Id>, i: Id, t: TaskId, criterion: string) {
    && (forall x <- ids :: x in Kin(s.store, t, criterion)
                        || (x == i && Guarded(s, i) && s.store[i].task == t && s.store[i].criterion == criterion))
    && (forall j, k :: 0 <= j < k < |ids| ==> ids[j] != ids[k])
  }

  /** Instances still to be canceled to make room for one that arrives, or which go with it. */
  ghost predicate Displaces(s: State, ids: seq<Id>, i: Id, t: TaskId, criterion: string) {
    && t in s.cfg.tasks && Leaving(s, ids, i, t, criterion)
    && (ids != [] ==> 0 < s.cfg.tasks[t].maxQueued <= |Kin(s.store, t, criterion)| + 1 - |ids|)
    && (s.cfg.tasks[t].keepLast ==> Front(s.store, ids, t, criterion))
  }

  lemma DisplacesFull(s: State, ids: seq<Id>, i: Id, t: TaskId, criterion: string)
    requires Displaces(s, ids, i, t, criterion) && ids != []
    ensures ids[0] in s.store && s.store[ids[0]].task == t && s.store[ids[0]].criterion == criterion
    ensures Unready(s.store, ids[0]) && (ids[0] in Kin(s.store, t, criterion) || Guarded(s, ids[0]))
    ensures IsHerder(s.store, ids[0]) ==> Full(s, QueueOf(t, criterion))
  {
    assert ids[0] in ids && ids[..0] == [];
    if IsHerder(s.store, ids[0]) && s.cfg.tasks[t].keepLast {
      FrontIsHerder(s.store, ids, t, criterion);
    }
    hide Front, HerderFirst;
  }

  lemma FrontIsHerder(store: Store, ids: seq<Id>, t: TaskId, criterion: string)
    requires Front(store, ids, t, criterion) && ids != [] && IsHerder(store, ids[0])
    ensures HerderFirst(store, t, criterion)
  {
    hide Kin, IsHerder;
    assert ids[..0] == [];
  }

  lemma FrontStays(a: Store, b: Store, ids: seq<Id>, t: TaskId, criterion: string)
    requires Front(a, ids, t, criterion) && ids != [] && (forall h :: IsHerder(a, h) ==> IsHerder(b, h))
    requires forall j, k :: 0 <= j < k < |ids| ==> ids[j] != ids[k]
    requires || Kin(b, t, criterion) == Kin(a, t, criterion) - {ids[0]}
             || (Kin(b, t, criterion) == Kin(a, t, criterion) && IsHerder(a, ids[0]))
    ensures Front(b, ids[1..], t, criterion)
  {
    hide Kin, IsHerder, Lowest;
    var kin := Kin(a, t, criterion);
    if h :| h in kin && IsHerder(a, h) && h !in ids && forall j <- kin :: h <= j {
      assert h in Kin(b, t, criterion);
    } else {
      LowestWithoutFirst(kin, ids);
      assert ids[0] !in ids[1..];
    }
  }

  lemma LowestWithoutFirst(kin: set<Id>, ids: seq<Id>)
    requires Lowest(kin, ids) && ids != [] && forall j, k :: 0 <= j < k < |ids| ==> ids[j] != ids[k]
    ensures ids[0] in kin && (forall j <- kin :: ids[0] <= j) && Lowest(kin - {ids[0]}, ids[1..])
  {
    assert ids[..0] == [];
    var rest := ids[1..];
    forall m | 0 <= m < |rest|
      ensures rest[m] in kin - {ids[0]} && forall j <- kin - {ids[0]} :: rest[m] <= j || j in rest[..m]
    {
      assert rest[m] == ids[m+1] && ids[..m+1] == [ids[0]] + rest[..m];
    }
  }

  lemma ArrivingStays(s: State, t: State, x: Id, i: Id)
    requires Guarded(s, i) && i != x && i in s.store && Shape(s) && Later(s, t, {x})
    ensures Guarded(t, i) && i in t.store
    ensures t.store[i].task == s.store[i].task && t.store[i].criterion == s.store[i].criterion
  {
    hide *;
    GuardedStays(s, t, {x}, i);
    SameMax(s, t, {x}, i);
  }

  lemma LeavingStays(s: State, t: State, ids: seq<Id>, i: Id, task: TaskId, criterion: string)
    requires Leaving(s, ids, i, task, criterion) && ids != [] && Shape(s) && Later(s, t, {ids[0]})
    requires Kin(s.store, task, criterion) - {ids[0]} <= Kin(t.store, task, criterion)
    ensures Leaving(t, ids[1..], i, task, criterion)
  {
    hide Kin, Guarded, Later, Shape;
    forall x <- ids[1..]
      ensures x in Kin(t.store, task, criterion)
           || (x == i && Guarded(t, i) && i in t.store && t.store[i].task == task && t.store[i].criterion == criterion)
    {
      assert x in ids && x != ids[0];
      if x !in Kin(s.store, task, criterion) {
        PlannedIsUnready(s, i);
        ArrivingStays(s, t, ids[0], i);
      }
    }
  }

  lemma DisplacesStays(s: State, t: State, ids: seq<Id>, i: Id, task: TaskId, criterion: string)
    requires Displaces(s, ids, i, task, criterion) && ids != [] && Shape(s) && Later(s, t, {ids[0]})
    requires || Kin(t.store, task, criterion) == Kin(s.store, task, criterion) - {ids[0]}
             || (Kin(t.store, task, criterion) == Kin(s.store, task, criterion) && IsHerder(s.store, ids[0]))
    ensures Displaces(t, ids[1..], i, task, criterion)
  {
    hide Kin, IsHerder, Guarded, Front, Later, Shape, Leaving;
    SameConfig(s, t, {ids[0]});
    LeavingStays(s, t, ids, i, task, criterion);
    HerdersStay(s, t, {ids[0]});
    OneFewer(Kin(s.store, task, criterion), ids[0]);
    assert forall j, k :: 0 <= j < k < |ids| ==> ids[j] != ids[k] by { DistinctLeaving(s, ids, i, task, criterion); }
    if s.cfg.tasks[task].keepLast {
      FrontStays(s.store, t.store, ids, task, criterion);
    }
  }

  lemma DistinctLeaving(s: State, ids: seq<Id>, i: Id, task: TaskId, criterion: string)
    requires Leaving(s, ids, i, task, criterion)
    ensures forall j, k :: 0 <= j < k < |ids| ==> ids[j] != ids[k]
  {
  }

  lemma HerdersStay(s: State, t: State, except: set<Id>)
    requires Later(s, t, except)
    ensures forall h :: IsHerder(s.store, h) ==> IsHerder(t.store, h)
  {
    forall h | IsHerder(s.store, h) ensures IsHerder(t.store, h) {
      StillHerder(s, t, except, h);
    }
  }

  lemma OneFewer(a: set<Id>, d: Id)
    ensures |a - {d}| >= |a| - 1
  {
    if d in a {
      assert a == a - {d} + {d};
    } else {
      assert a - {d} == a;
    }
  }

  lemma SurplusDisplaces(s: State, i: Id, limbo: set<Id>, steady: bool)
    requires Inv(s, limbo, steady) && Guarded(s, i) && 0 < MaxQueued(s, i)
    ensures i in s.store
    ensures Displaces(s, Surplus(Duplicates(s, i), MaxQueued(s, i), KeepLast(s, i)), i,
                      s.store[i].task, s.store[i].criterion)
    ensures Surplus(Duplicates(s, i), MaxQueued(s, i), KeepLast(s, i)) == []
       <==> |Kin(s.store, s.store[i].task, s.store[i].criterion)| < MaxQueued(s, i)
  {
    hide *;
    var order := Ascending(Rivals(s, i), s.next);
    RivalOrder(s, i, limbo, steady);
    MaxIs(s, i);
    SurplusOf(s, order, i, s.store[i].task, s.store[i].criterion, MaxQueued(s, i), KeepLast(s, i));
  }

  /** The rivals of an arriving instance, in order, are the queued ones of its task and criterion. */
  lemma RivalOrder(s: State, i: Id, limbo: set<Id>, steady: bool)
    requires Inv(s, limbo, steady) && Guarded(s, i)
    ensures var order := Ascending(Rivals(s, i), s.next);
            && i in s.store && Duplicates(s, i) == order + [i] && i !in order
            && Elems(order) == Kin(s.store, s.store[i].task, s.store[i].criterion)
            && |order| == |Kin(s.store, s.store[i].task, s.store[i].criterion)|
            && forall j, k :: 0 <= j < k < |order| ==> order[j] < order[k]
  {
    var order := Ascending(Rivals(s, i), s.next);
    hide *;
    OrderOf(s, i);
    PlannedIsUnready(s, i);
    InvShape(s, limbo, steady);
    HerdsParts(s, limbo, steady);
    KinAreRivals(s, i, limbo);
    RivalsAreKin(s, i);
    DistinctElems(order);
  }

  lemma OrderOf(s: State, i: Id)
    ensures Duplicates(s, i) == Ascending(Rivals(s, i), s.next) + [i]
  {
    hide Ascending, Rivals;
  }

  lemma SurplusOf(s: State, order: seq<Id>, i: Id, t: TaskId, criterion: string, max: nat, keepLast: bool)
    requires 0 < max && Guarded(s, i) && s.store[i].task == t && s.store[i].criterion == criterion
    requires t in s.cfg.tasks && max == s.cfg.tasks[t].maxQueued && keepLast == s.cfg.tasks[t].keepLast
    requires Elems(order) == Kin(s.store, t, criterion) && |order| == |Kin(s.store, t, criterion)| && i !in order
    requires forall j, k :: 0 <= j < k < |order| ==> order[j] < order[k]
    ensures Displaces(s, Surplus(order + [i], max, keepLast), i, t, criterion)
    ensures Surplus(order + [i], max, keepLast) == [] <==> |order| < max
  {
    var all := order + [i];
    var surplus := Surplus(all, max, keepLast);
    hide Kin, Guarded, StatusOf, Front;
    if |order| >= max {
      if keepLast {
        assert surplus == order[..|order| + 1 - max];
        OrderIsFront(s.store, order, |order| + 1 - max, t, criterion);
        assert forall x <- surplus :: x in Elems(order);
      } else {
        assert surplus == Reversed(all[max..]);
        ReversedAt(all[max..]);
        assert forall x <- surplus :: x in all[max..] && (x == i || x in order);
        assert forall x <- order :: x in Elems(order);
        hide Reversed;
      }
    } else {
      FrontOfNone(s.store, t, criterion);
    }
  }

  lemma FrontOfNone(store: Store, t: TaskId, criterion: string)
    ensures Front(store, [], t, criterion)
  {
  }

  lemma OrderIsFront(store: Store, order: seq<Id>, n: nat, t: TaskId, criterion: string)
    requires n <= |order| && Elems(order) == Kin(store, t, criterion)
    requires forall j, k :: 0 <= j < k < |order| ==> order[j] < order[k]
    ensures Front(store, order[..n], t, criterion)
  {
    var kin := Kin(store, t, criterion);
    hide Kin, IsHerder;
    forall m | 0 <= m < n
      ensures order[..n][m] in kin && forall j <- kin :: order[..n][m] <= j || j in order[..n][..m]
    {
      assert order[m] in Elems(order) && order[..n][..m] == order[..m];
      forall j <- kin ensures order[m] <= j || j in order[..m] {
        assert j in Elems(order);
        var k :| 0 <= k < |order| && order[k] == j;
        if k < m {
          assert order[..m][k] == j;
        }
      }
    }
  }

  // ---------------------------------------------------------------------------------------------
  // What the answers are made of
  // ---------------------------------------------------------------------------------------------

  lemma AnsweredCases(s: State, i: Id, answer: seq<Request>, act: Answers)
    requires Answered(s, i, answer, act)
    ensures s.script == [] ==> answer == []
    ensures s.script != [] ==> s.script[0] == answer && PlanAllAlike(s.(script := s.script[1..]), s.script[0], i, act)
  {
    hide PlanAllAlike;
  }

  lemma PlanAllAlikeCases(s: State, reqs: seq<Request>, i: Id, act: Answers)
    requires PlanAllAlike(s, reqs, i, act) && reqs != []
    ensures var herd := HerdFor(s, reqs[0], i);
            PlanAlike(s, reqs[0], herd, i, act) && PlanAllAlike(Plan(s, reqs[0], herd, i), reqs[1..], i, act)
  {
    hide PlanAlike, HerdFor, Plan;
  }

  lemma PlanAlikeCases(s: State, req: Request, herd: Id, parent: Id, act: Answers)
    requires PlanAlike(s, req, herd, parent, act) && Known(s, req)
    ensures var t := Insert(s, req, herd, parent);
            && Answered(t, s.next, act.onPlan(req.task), act)
            && (!(herd in s.live && herd in s.store) ==> EnqueueAlike(Trigger(t, s.next), s.next, act))
  {
    hide Answered, EnqueueAlike, Insert, Trigger, Known;
  }

  lemma EnqueueAlikeCases(s: State, i: Id, act: Answers)
    requires EnqueueAlike(s, i, act)
    ensures !Data(s, i).force && Data(s, i).task in s.enabled && MaxQueued(s, i) != 0 ==>
              CancelAllAlike(s, Surplus(Duplicates(s, i), MaxQueued(s, i), KeepLast(s, i)), act)
  {
    hide CancelAllAlike, CancelAlike, Surplus, Duplicates, MaxQueued, KeepLast, Data;
  }

  lemma CancelAllAlikeCases(s: State, ids: seq<Id>, act: Answers)
    requires CancelAllAlike(s, ids, act) && ids != []
    ensures CancelAlike(s, ids[0], act) && CancelAllAlike(Cancel(s, ids[0]), ids[1..], act)
  {
    hide CancelAlike, Cancel;
  }

  /** A herder that has not started is canceled: its finish actions answer as they should. */
  lemma CancelAlikeCases(s: State, i: Id, act: Answers)
    requires CancelAlike(s, i, act) && IsHerder(s.store, i) && Unready(s.store, i)
    ensures StopHerderAlike(CancelHerd(s, i), i, act)
  {
    hide StopHerderAlike, CancelHerd;
  }

  lemma StopHerderAlikeCases(s: State, h: Id, act: Answers)
    requires StopHerderAlike(s, h, act) && h in s.store && StatusOf(s.store[h]) != Canceled
    ensures !s.store[h].started ==> Answered(Watch(s, h), h, act.onCancel(s.store[h].task), act)
    ensures s.store[h].started ==> Inside(Watch(s, h), h, act)
  {
    hide Answered, Inside, Watch, StatusOf;
  }

  // ---------------------------------------------------------------------------------------------
  // Nothing comes again
  // ---------------------------------------------------------------------------------------------

  /** While the actions of an instance run, those asked for lead nowhere back, and the full queues stay
      as they are. */
  lemma {:induction false} PlanAllHolds(s: State, reqs: seq<Request>, i: Id, act: Answers, places: set<Place>,
                                        us: set<TaskId>, limbo: set<Id>, steady: bool)
    requires Ready(s, places, us, limbo, steady) && i in s.store && PlanAllAlike(s, reqs, i, act)
    requires places != {} ==> Anchored(s, s.store[i].herd, places)
    requires (forall r <- reqs :: RequestCloses(s, act, places, r)) && NoForce(PlanAll(s, reqs, i))
    ensures Holds(s, PlanAll(s, reqs, i), places, us) && forall r <- reqs :: !Leads(s, places, r)
    decreases |s.script|, 7, |reqs|
  {
    hide *;
    PlanAllCases(s, reqs, i);
    ReadyParts(s, places, us, limbo, steady);
    if reqs == [] {
      SameStoreHolds(s, s, places, us);
    } else {
      var herd := HerdFor(s, reqs[0], i);
      var t := Plan(s, reqs[0], herd, i);
      var u := PlanAll(t, reqs[1..], i);
      assert reqs[0] in reqs && forall r <- reqs[1..] :: r in reqs;
      InvShape(s, limbo, steady);
      PlanAllAlikeCases(s, reqs, i, act);
      PlanHerd(s, reqs[0], i, limbo, steady);
      PlanKeeps(s, reqs[0], herd, i, limbo, steady);
      StillThere(s, t, {}, i);
      PlanAllKeeps(t, reqs[1..], i, limbo, steady);
      ForceBefore(t, u, {});
      if places != {} {
        HerdOfAnchored(s, reqs[0], i, places);
      }
      PlanHolds(s, reqs[0], herd, i, act, places, us, limbo, steady);
      ReadyStays(s, t, {}, places, us, limbo, steady);
      if places != {} {
        HoldsParts(s, t, places, us);
        AnchoredStays(s, t, s.store[i].herd, places);
      }
      RequestsStay(s, t, act, places);
      PlanAllHolds(t, reqs[1..], i, act, places, us, limbo, steady);
      HoldsTrans(s, t, u, places, us);
      forall r <- reqs ensures !Leads(s, places, r) {
        assert r == reqs[0] || r in reqs[1..];
      }
    }
  }

  lemma HerdOfAnchored(s: State, req: Request, i: Id, places: set<Place>)
    requires i in s.store && Anchored(s, s.store[i].herd, places)
    ensures if req.lone then HerdFor(s, req, i) == 0 else Anchored(s, HerdFor(s, req, i), places)
  {
    hide Anchored;
  }

  lemma {:induction false} AnswerHolds(s: State, i: Id, answer: seq<Request>, act: Answers, places: set<Place>,
                                       us: set<TaskId>, limbo: set<Id>, steady: bool)
    requires Ready(s, places, us, limbo, steady) && i in s.store && Answered(s, i, answer, act)
    requires places != {} ==> Anchored(s, s.store[i].herd, places)
    requires (forall r <- answer :: RequestCloses(s, act, places, r)) && NoForce(Trigger(s, i))
    ensures Holds(s, Trigger(s, i), places, us) && forall r <- answer :: !Leads(s, places, r)
    decreases |s.script|, 0, 0
  {
    hide *;
    TriggerCases(s, i);
    AnsweredCases(s, i, answer, act);
    ReadyParts(s, places, us, limbo, steady);
    if s.script == [] {
      SameStoreHolds(s, s, places, us);
    } else {
      var t := s.(script := s.script[1..]);
      ScriptIsAside(s, s.script[1..], limbo, steady);
      SameStoreHolds(s, t, places, us);
      ReadyStays(s, t, {}, places, us, limbo, steady);
      if places != {} {
        HoldsParts(s, t, places, us);
        AnchoredStays(s, t, s.store[i].herd, places);
      }
      RequestsStay(s, t, act, places);
      PlanAllHolds(t, answer, i, act, places, us, limbo, steady);
      HoldsTrans(s, t, Trigger(s, i), places, us);
    }
  }

  /** Where one is once an instance is planned; outside of cancellations nothing is recorded. */
  function PlanPlaces(places: set<Place>, t: TaskId): set<Place> {
    if places == {} then {} else places + {PlanOf(t)}
  }

  lemma PlanPlacesClose(s: State, act: Answers, places: set<Place>, req: Request)
    requires RequestCloses(s, act, places, req) && Known(s, req)
    ensures forall r <- act.onPlan(req.task) :: RequestCloses(s, act, PlanPlaces(places, req.task), r)
  {
    if places == {} {
      NothingRequestCloses(s, act);
      hide RequestCloses;
    } else {
      hide Closes;
      OnePlaceFurther(s, act, places, PlanOf(req.task));
    }
  }

  lemma PlanPlacesFull(s: State, places: set<Place>, t: TaskId)
    requires AllFull(s, places)
    ensures AllFull(s, PlanPlaces(places, t)) && places <= PlanPlaces(places, t)
    ensures PlanPlaces(places, t) != {} <==> places != {}
  {
  }

  lemma NewHerd(s: State, req: Request, herd: Id, parent: Id)
    requires Shape(s) && (herd == 0 || IsHerder(s.store, herd))
    ensures var t := Insert(s, req, herd, parent);
            && s.next in t.store && t.store[s.next].herd == (if herd == 0 then s.next else herd)
            && StatusOf(t.store[s.next]) == Planned && t.store[s.next].task == req.task
  {
    var herded := herd in s.live && herd in s.store;
    var inst := NewInst(s.next, req, herd, herded, parent);
    NewInstIsNewborn(s, req, herd, parent);
    EnterEffect(s, inst, herd, herded);
    assert Insert(s, req, herd, parent) == Enter(s, inst, herd, herded);
    assert inst.task == req.task by { hide Conditions; }
    hide Insert, Enter, NewInst, Coherent, StatusOf;
  }

  /** A planned instance has something to stay with while its actions run. */
  lemma NewIsAnchored(s: State, req: Request, herd: Id, parent: Id, places: set<Place>, us: set<TaskId>)
    requires Shape(s) && (herd == 0 || IsHerder(s.store, herd)) && Fit(s, us)
    requires herd != 0 ==> Anchored(s, herd, places)
    ensures var t := Insert(s, req, herd, parent);
            s.next in t.store && Anchored(t, t.store[s.next].herd, places)
  {
    var t := Insert(s, req, herd, parent);
    NewHerd(s, req, herd, parent);
    InsertLater(s, req, herd, parent);
    InsertHolds(s, req, herd, parent, places, us);
    if herd != 0 {
      hide *;
      HoldsParts(s, t, places, us);
      AnchoredStays(s, t, herd, places);
    }
    hide Insert, Later, Holds, Fit, Shape;
  }

  lemma {:induction false} PlanHolds(s: State, req: Request, herd: Id, parent: Id, act: Answers, places: set<Place>,
                                     us: set<TaskId>, limbo: set<Id>, steady: bool)
    requires Ready(s, places, us, limbo, steady) && (herd == 0 || IsHerder(s.store, herd))
    requires places != {} ==> if req.lone then herd == 0 else Anchored(s, herd, places)
    requires RequestCloses(s, act, places, req) && PlanAlike(s, req, herd, parent, act)
    requires NoForce(Plan(s, req, herd, parent))
    ensures Holds(s, Plan(s, req, herd, parent), places, us) && !Leads(s, places, req)
    decreases |s.script|, 6, 0
  {
    hide *;
    PlanCases(s, req, herd, parent);
    KnownIs(s, req);
    ReadyParts(s, places, us, limbo, steady);
    LeadsCases(s, places, req);
    if !Known(s, req) {
      SameStoreHolds(s, s, places, us);
    } else {
      var t := Insert(s, req, herd, parent);
      var u := Trigger(t, s.next);
      var v := Plan(s, req, herd, parent);
      InvShape(s, limbo, steady);
      PlanAlikeCases(s, req, herd, parent, act);
      NewIsGuarded(s, req, herd, parent);
      NewIsReady(s, req, herd, parent, places, us, limbo, steady);
      TriggerKeeps(t, s.next, limbo, steady);
      LiveHerderIsKnown(s, herd);
      ZeroIsNobody(s);
      if places != {} {
        AnchoredAlive(s, req, herd, places, limbo, steady);
      }
      if herd in s.live && herd in s.store {
        SoilIsAside(u, herd, limbo, steady);
        ForceBefore(u, v, {});
        NewAnswerHolds(s, req, herd, parent, act, places, us, limbo, steady);
        SoilStore(u, herd);
        HoldsParts(t, u, places, us);
        TriggerConfig(t, s.next, limbo, steady);
        SoilConfig(u, herd);
        SameStoreHolds(u, v, places, us);
        HoldsTrans(t, u, v, places, us);
      } else {
        InvShape(t, limbo, steady);
        GuardedStays(t, u, {}, s.next);
        EnqueueKeeps(u, s.next, limbo, steady);
        ForceBefore(u, v, {s.next});
        NewAnswerHolds(s, req, herd, parent, act, places, us, limbo, steady);
        ArrivalHolds(s, req, herd, parent, act, places, us, limbo, steady);
        HoldsTrans(t, u, v, places, us);
      }
      InsertHolds(s, req, herd, parent, places, us);
      HoldsTrans(s, t, v, places, us);
    }
  }

  lemma ZeroIsNobody(s: State)
    requires Shape(s)
    ensures 0 !in s.store
  {
    hide Coherent, StatusOf;
  }

  lemma SoilConfig(s: State, h: Id)
    ensures Soil(s, h).cfg == s.cfg
  {
  }

  lemma TriggerConfig(s: State, i: Id, limbo: set<Id>, steady: bool)
    requires Inv(s, limbo, steady) && i in s.store
    ensures Trigger(s, i).cfg == s.cfg && Trigger(s, i).enabled == s.enabled
  {
    hide *;
    TriggerKeeps(s, i, limbo, steady);
    SameConfig(s, Trigger(s, i), {});
    SameEnabled(s, Trigger(s, i), {});
  }

  lemma LeadsCases(s: State, places: set<Place>, r: Request)
    ensures Leads(s, places, r)
       <==> Known(s, r) && (PlanOf(r.task) in places || (r.lone && QueueOf(r.task, r.criterion) in places))
  {
    hide Known;
  }

  lemma AnchoredAlive(s: State, req: Request, herd: Id, places: set<Place>, limbo: set<Id>, steady: bool)
    requires Inv(s, limbo, steady) && if req.lone then herd == 0 else Anchored(s, herd, places)
    ensures !req.lone ==> herd in s.live && herd in s.store && herd != 0
  {
    if !req.lone {
      hide *;
      AnchoredIsLive(s, herd, places, limbo, steady);
    }
  }

  lemma NewIsReady(s: State, req: Request, herd: Id, parent: Id, places: set<Place>, us: set<TaskId>,
                   limbo: set<Id>, steady: bool)
    requires Ready(s, places, us, limbo, steady) && (herd == 0 || IsHerder(s.store, herd))
    ensures var t := Insert(s, req, herd, parent);
            && Ready(t, PlanPlaces(places, req.task), us, limbo, steady) && Ready(t, places, us, limbo, steady)
            && t.cfg == s.cfg && t.enabled == s.enabled && Inv(t, limbo, steady) && t.script == s.script
  {
    hide *;
    var t := Insert(s, req, herd, parent);
    ReadyParts(s, places, us, limbo, steady);
    InvShape(s, limbo, steady);
    InsertInv(s, req, herd, parent, limbo, steady);
    InsertLater(s, req, herd, parent);
    InsertHolds(s, req, herd, parent, places, us);
    ReadyStays(s, t, {}, places, us, limbo, steady);
    ReadyParts(t, places, us, limbo, steady);
    PlanPlacesFull(t, places, req.task);
    ReadyParts(t, PlanPlaces(places, req.task), us, limbo, steady);
    InsertTask(s, req, herd, parent);
  }

  /** The actions of the new instance. */
  lemma {:induction false} NewAnswerHolds(s: State, req: Request, herd: Id, parent: Id, act: Answers,
                                          places: set<Place>, us: set<TaskId>, limbo: set<Id>, steady: bool)
    requires Ready(s, places, us, limbo, steady) && (herd == 0 || IsHerder(s.store, herd)) && Known(s, req)
    requires places != {} ==> if req.lone then herd == 0 else Anchored(s, herd, places)
    requires RequestCloses(s, act, places, req)
    requires Answered(Insert(s, req, herd, parent), s.next, act.onPlan(req.task), act)
    requires NoForce(Trigger(Insert(s, req, herd, parent), s.next))
    ensures var t := Insert(s, req, herd, parent);
            Holds(t, Trigger(t, s.next), places, us) && PlanOf(req.task) !in places
    decreases |s.script|, 5, 1
  {
    hide *;
    var t := Insert(s, req, herd, parent);
    var more := PlanPlaces(places, req.task);
    ReadyParts(s, places, us, limbo, steady);
    InvShape(s, limbo, steady);
    NewIsReady(s, req, herd, parent, places, us, limbo, steady);
    NewIsGuarded(s, req, herd, parent);
    PlanPlacesFull(s, places, req.task);
    PlanPlacesClose(s, act, places, req);
    RequestsStay(s, t, act, more);
    if places != {} {
      AnchoredAlive(s, req, herd, places, limbo, steady);
      NewIsAnchored(s, req, herd, parent, places, us);
      AnchoredWider(t, t.store[s.next].herd, places, more);
    }
    AnswerHolds(t, s.next, act.onPlan(req.task), act, more, us, limbo, steady);
    HoldsNarrower(t, Trigger(t, s.next), more, places, us);
    PlanNotAgain(s, act, places, req);
  }

  lemma PlanNotAgain(s: State, act: Answers, places: set<Place>, req: Request)
    requires RequestCloses(s, act, places, req) && Known(s, req)
    requires forall r <- act.onPlan(req.task) :: !Leads(s, PlanPlaces(places, req.task), r)
    ensures PlanOf(req.task) !in places
  {
    if places != {} {
      hide Closes, Leads;
      DoesNotComeAgain(s, act, places, PlanOf(req.task));
    }
  }

  /** The new instance arrives in the queue. */
  lemma {:induction false} ArrivalHolds(s: State, req: Request, herd: Id, parent: Id, act: Answers,
                                        places: set<Place>, us: set<TaskId>, limbo: set<Id>, steady: bool)
    requires Ready(s, places, us, limbo, steady) && (herd == 0 || IsHerder(s.store, herd)) && Known(s, req)
    requires places != {} ==> req.lone && herd == 0
    requires RequestCloses(s, act, places, req)
    requires var t := Insert(s, req, herd, parent);
             var u := Trigger(t, s.next);
             && Inv(u, limbo, steady) && Guarded(u, s.next) && Holds(t, u, places, us)
             && EnqueueAlike(u, s.next, act) && NoForce(Enqueue(u, s.next))
    ensures var t := Insert(s, req, herd, parent);
            var u := Trigger(t, s.next);
            && Holds(u, Enqueue(u, s.next), places, us)
            && (req.lone && herd == 0 ==> QueueOf(req.task, req.criterion) !in places)
    decreases |s.script|, 5, 1
  {
    hide *;
    var t := Insert(s, req, herd, parent);
    var u := Trigger(t, s.next);
    var p := QueueOf(req.task, req.criterion);
    ReadyParts(s, places, us, limbo, steady);
    InvShape(s, limbo, steady);
    NewIsReady(s, req, herd, parent, places, us, limbo, steady);
    NewIsGuarded(s, req, herd, parent);
    NewHerd(s, req, herd, parent);
    InsertForce(s, req, herd, parent);
    TriggerKeeps(t, s.next, limbo, steady);
    TriggerConfig(t, s.next, limbo, steady);
    ReadyStays(t, u, {}, places, us, limbo, steady);
    PlannedIsUnready(u, s.next);
    SameMax(t, u, {}, s.next);
    StillThere(t, u, {}, s.next);
    EnqueueKeeps(u, s.next, limbo, steady);
    ForceBefore(u, Enqueue(u, s.next), {s.next});
    NotForced(u, s.next);
    QueueCloses(s, act, places, req);
    ClosesStays(s, u, act, places, p);
    HerderIfOwn(u, s.next);
    KnownIs(s, req);
    EnqueueHolds(u, s.next, act, places, us, limbo, steady);
  }

  lemma NotForced(s: State, i: Id)
    requires NoForce(s) && i in s.store
    ensures !s.store[i].force && Data(s, i) == s.store[i]
  {
  }

  lemma HerderIfOwn(s: State, i: Id)
    requires i in s.store
    ensures s.store[i].herd == i <==> IsHerder(s.store, i)
  {
  }

  lemma QueueCloses(s: State, act: Answers, places: set<Place>, req: Request)
    requires RequestCloses(s, act, places, req) && Known(s, req) && (places != {} ==> req.lone)
    ensures Closes(s, act, places, QueueOf(req.task, req.criterion))
  {
    if places == {} {
      NothingCloses(s, act, QueueOf(req.task, req.criterion));
    }
    hide Closes;
  }

  /** An instance arrives: those that make room for it, or itself, go. Nothing else leaves the full
      queues, and the arrival is in none of them. */
  lemma {:induction false} EnqueueHolds(s: State, i: Id, act: Answers, places: set<Place>, us: set<TaskId>,
                                        limbo: set<Id>, steady: bool)
    requires Ready(s, places, us, limbo, steady) && Guarded(s, i) && i in s.store && !s.store[i].force
    requires (IsHerder(s.store, i) ==> s.store[i].task in s.enabled) && (places != {} ==> IsHerder(s.store, i))
    requires Closes(s, act, places, QueueOf(s.store[i].task, s.store[i].criterion))
    requires EnqueueAlike(s, i, act) && NoForce(Enqueue(s, i))
    ensures Holds(s, Enqueue(s, i), places, us) && QueueOf(s.store[i].task, s.store[i].criterion) !in places
    decreases |s.script|, 5, 0
  {
    hide *;
    var t, criterion := s.store[i].task, s.store[i].criterion;
    EnqueueCases(s, i);
    EnqueueAlikeCases(s, i, act);
    ReadyParts(s, places, us, limbo, steady);
    InvShape(s, limbo, steady);
    DataIs(s, i);
    MaxIs(s, i);
    PlannedIsUnready(s, i);
    if t !in s.enabled {
      HerderIfOwn(s, i);
      CancelCases(s, i);
      GuardedHerd(s, i, limbo, steady);
      DropSheepLine(s, i, false, limbo, steady);
      PlannedIsNotQueued(s, i);
      DropSheepConfig(s, i, limbo, steady);
      LineHolds(s, Enqueue(s, i), places, us);
    } else if MaxQueued(s, i) == 0 {
      UnlimitedIsNotFull(s, places, t, criterion);
      LimitedIfFit(s, i, us);
      AdmitHolds(s, i, places, us);
    } else {
      var surplus := Surplus(Duplicates(s, i), MaxQueued(s, i), KeepLast(s, i));
      SurplusDisplaces(s, i, limbo, steady);
      var except := if i in surplus then {i} else {};
      SurplusCancels(s, i);
      CancelAllKeeps(s, surplus, except, limbo, steady);
      StillThere(s, CancelAll(s, surplus), except, i);
      AdmitForce(CancelAll(s, surplus), i);
      ArrivesNotAgain(s, i, surplus, act, places, us, limbo, steady);
      ArrivesInTurn(s, i, surplus, act, places, us, limbo, steady);
    }
  }

  lemma MaxIs(s: State, i: Id)
    requires i in s.store
    ensures MaxQueued(s, i) == if s.store[i].task in s.cfg.tasks then s.cfg.tasks[s.store[i].task].maxQueued else 0
    ensures KeepLast(s, i) <==> s.store[i].task in s.cfg.tasks && s.cfg.tasks[s.store[i].task].keepLast
  {
  }

  lemma LimitedIfFit(s: State, i: Id, us: set<TaskId>)
    requires Fit(s, us) && i in s.store
    ensures s.store[i].task in us ==> 0 < MaxQueued(s, i)
  {
    MaxIs(s, i);
    hide Kin, MaxQueued;
  }

  lemma PlannedIsNotQueued(s: State, i: Id)
    requires i in s.store && StatusOf(s.store[i]) == Planned
    ensures StatusOf(s.store[i]) != Queued
  {
  }

  lemma DropSheepConfig(s: State, i: Id, limbo: set<Id>, steady: bool)
    requires Inv(s, limbo, steady) && i in s.store && s.store[i].herd != i && Unready(s.store, i)
    ensures DropSheep(s, i, false).cfg == s.cfg
  {
    hide *;
    DropSheepInv(s, i, false, limbo, steady);
    SameConfig(s, DropSheep(s, i, false), {i});
  }

  lemma UnlimitedIsNotFull(s: State, places: set<Place>, t: TaskId, criterion: string)
    requires AllFull(s, places) && (t in s.cfg.tasks ==> s.cfg.tasks[t].maxQueued == 0)
    ensures QueueOf(t, criterion) !in places
  {
    assert QueueOf(t, criterion) in places ==> Full(s, QueueOf(t, criterion));
    hide Kin, HerderFirst;
  }

  /** A queue with room, or without a limit, gets one more. */
  lemma AdmitHolds(s: State, i: Id, places: set<Place>, us: set<TaskId>)
    requires i in s.store && StatusOf(s.store[i]) == Planned && Fit(s, us)
    requires QueueOf(s.store[i].task, s.store[i].criterion) !in places
    requires s.store[i].task in us ==> |Kin(s.store, s.store[i].task, s.store[i].criterion)| < MaxQueued(s, i)
    ensures Holds(s, Admit(s, i), places, us)
  {
    var t, criterion := s.store[i].task, s.store[i].criterion;
    var u := Admit(s, i);
    AdmitStore(s, i);
    forall task, c | (task, c) != (t, criterion) ensures Kin(u.store, task, c) == Kin(s.store, task, c) {
      AdmitElsewhere(s, i, task, c);
    }
    AdmitKin(s, i, t, criterion);
    SmallerSet(Kin(u.store, t, criterion), Kin(s.store, t, criterion) + {i});
    hide Kin, Admit, KeepsLast, StatusOf;
    forall v <- us, c ensures |Kin(u.store, v, c)| <= s.cfg.tasks[v].maxQueued {
      if (v, c) == (t, criterion) {
        MaxIs(s, i);
      }
    }
  }

  lemma AdmitElsewhere(s: State, i: Id, t: TaskId, criterion: string)
    requires i in s.store && StatusOf(s.store[i]) == Planned
    requires (t, criterion) != (s.store[i].task, s.store[i].criterion)
    ensures Kin(Admit(s, i).store, t, criterion) == Kin(s.store, t, criterion)
  {
    AdmitStore(s, i);
    hide Admit;
  }

  lemma AnswersAre(act: Answers, t: TaskId, criterion: string)
    ensures AnswerAt(act, PlanOf(t)) == act.onPlan(t) && AnswerAt(act, QueueOf(t, criterion)) == act.onCancel(t)
  {
  }

  /** In a full queue, a herder is the first that goes. */
  lemma FirstIsHerder(s: State, i: Id, limbo: set<Id>, steady: bool)
    requires Inv(s, limbo, steady) && Guarded(s, i) && i in s.store && IsHerder(s.store, i) && 0 < MaxQueued(s, i)
    requires Full(s, QueueOf(s.store[i].task, s.store[i].criterion))
    ensures var surplus := Surplus(Duplicates(s, i), MaxQueued(s, i), KeepLast(s, i));
            surplus != [] && IsHerder(s.store, surplus[0])
  {
    var t, criterion := s.store[i].task, s.store[i].criterion;
    var order := Ascending(Rivals(s, i), s.next);
    hide *;
    FullIs(s, i);
    RivalOrder(s, i, limbo, steady);
    FirstOfOrder(s.store, order, i, t, criterion, MaxQueued(s, i), KeepLast(s, i));
  }

  lemma FullIs(s: State, i: Id)
    requires i in s.store && Full(s, QueueOf(s.store[i].task, s.store[i].criterion))
    ensures MaxQueued(s, i) <= |Kin(s.store, s.store[i].task, s.store[i].criterion)|
    ensures KeepLast(s, i) ==> HerderFirst(s.store, s.store[i].task, s.store[i].criterion)
  {
    MaxIs(s, i);
    hide Kin, HerderFirst, MaxQueued, KeepLast;
  }

  lemma FirstOfOrder(store: Store, order: seq<Id>, i: Id, t: TaskId, criterion: string, max: nat, keepLast: bool)
    requires 0 < max <= |order| && IsHerder(store, i) && (keepLast ==> HerderFirst(store, t, criterion))
    requires Elems(order) == Kin(store, t, criterion)
    requires forall j, k :: 0 <= j < k < |order| ==> order[j] < order[k]
    ensures var surplus := Surplus(order + [i], max, keepLast);
            surplus != [] && IsHerder(store, surplus[0])
  {
    hide Kin, IsHerder;
    var all := order + [i];
    var surplus := Surplus(all, max, keepLast);
    if keepLast {
      var h :| h in Kin(store, t, criterion) && IsHerder(store, h) && forall j <- Kin(store, t, criterion) :: h <= j;
      assert order[0] in Elems(order) && h in Elems(order);
      var k :| 0 <= k < |order| && order[k] == h;
      assert order[0] == h && surplus[0] == order[0];
    } else {
      ReversedAt(all[max..]);
      assert surplus[0] == all[max..][|all| - max - 1] == i;
    }
  }

  /** In a full queue, the first that goes leads nowhere back, so that nobody arrives there. */
  lemma {:induction false} ArrivesNotAgain(s: State, i: Id, ids: seq<Id>, act: Answers, places: set<Place>,
                                           us: set<TaskId>, limbo: set<Id>, steady: bool)
    requires Ready(s, places, us, limbo, steady) && Guarded(s, i) && i in s.store
    requires places != {} ==> IsHerder(s.store, i)
    requires Closes(s, act, places, QueueOf(s.store[i].task, s.store[i].criterion))
    requires Displaces(s, ids, i, s.store[i].task, s.store[i].criterion)
    requires Cancels(s, ids, if i in ids then {i} else {})
    requires ids == Surplus(Duplicates(s, i), MaxQueued(s, i), KeepLast(s, i)) && 0 < MaxQueued(s, i)
    requires CancelAllAlike(s, ids, act) && NoForce(CancelAll(s, ids))
    ensures QueueOf(s.store[i].task, s.store[i].criterion) !in places
    decreases |s.script|, 4, |ids| + 1
  {
    hide *;
    var t, criterion := s.store[i].task, s.store[i].criterion;
    var p := QueueOf(t, criterion);
    if p in places {
      ReadyParts(s, places, us, limbo, steady);
      IsFull(s, places, p);
      FirstIsHerder(s, i, limbo, steady);
      CancelAllAlikeCases(s, ids, act);
      DisplacesFull(s, ids, i, t, criterion);
      FirstUnforced(s, ids, if i in ids then {i} else {}, limbo, steady);
      assert places + {p} == places;
      AnswersAre(act, t, criterion);
      OnePlaceFurther(s, act, places, p);
      CancelHolds(s, ids[0], act, places, us, limbo, steady);
      DoesNotComeAgain(s, act, places, p);
    }
  }

  lemma IsFull(s: State, places: set<Place>, p: Place)
    requires AllFull(s, places) && p in places
    ensures Full(s, p)
  {
    hide Full;
  }

  lemma FirstUnforced(s: State, ids: seq<Id>, except: set<Id>, limbo: set<Id>, steady: bool)
    requires Inv(s, limbo, steady) && ids != [] && Cancels(s, ids, except) && NoForce(CancelAll(s, ids))
    ensures NoForce(Cancel(s, ids[0])) && Inv(Cancel(s, ids[0]), limbo, steady)
    ensures Later(s, Cancel(s, ids[0]), {ids[0]}) && Cancels(Cancel(s, ids[0]), ids[1..], except)
    ensures CancelAll(s, ids) == CancelAll(Cancel(s, ids[0]), ids[1..]) && ids[0] in s.store
  {
    hide *;
    var t := Cancel(s, ids[0]);
    CancelAllCases(s, ids);
    FirstCancels(s, ids, except);
    CancelKeeps(s, ids[0], limbo, steady);
    CancelsStays(s, t, ids, except, {ids[0]});
    CancelAllKeeps(t, ids[1..], except, limbo, steady);
    ForceBefore(t, CancelAll(t, ids[1..]), except);
  }

  /** An instance arrives in a queue that is not full yet, or that was not made to give way before. */
  lemma {:induction false} ArrivesInTurn(s: State, i: Id, ids: seq<Id>, act: Answers, places: set<Place>,
                                         us: set<TaskId>, limbo: set<Id>, steady: bool)
    requires Ready(s, places, us, limbo, steady) && Guarded(s, i) && i in s.store
    requires QueueOf(s.store[i].task, s.store[i].criterion) !in places
    requires Closes(s, act, places, QueueOf(s.store[i].task, s.store[i].criterion))
    requires Displaces(s, ids, i, s.store[i].task, s.store[i].criterion)
    requires Cancels(s, ids, if i in ids then {i} else {})
    requires ids == [] <==> |Kin(s.store, s.store[i].task, s.store[i].criterion)| < MaxQueued(s, i)
    requires CancelAllAlike(s, ids, act) && NoForce(if i in ids then CancelAll(s, ids) else Admit(CancelAll(s, ids), i))
    ensures Holds(s, if i in ids then CancelAll(s, ids) else Admit(CancelAll(s, ids), i), places, us)
    decreases |s.script|, 4, |ids| + 1
  {
    hide *;
    var t, criterion := s.store[i].task, s.store[i].criterion;
    var except := if i in ids then {i} else {};
    var u := CancelAll(s, ids);
    ReadyParts(s, places, us, limbo, steady);
    InvShape(s, limbo, steady);
    CancelAllKeeps(s, ids, except, limbo, steady);
    StillThere(s, u, except, i);
    AdmitForce(u, i);
    CancelAllHolds(s, ids, i, t, criterion, except, act, places, us, limbo, steady);
    if i !in ids {
      GuardedStays(s, u, except, i);
      PlannedIsUnready(u, i);
      SameMax(s, u, except, i);
      HoldsParts(s, u, places, us);
      RoomForOne(s, u, ids, i, t, criterion, us);
      AdmitHolds(u, i, places, us);
      HoldsTrans(s, u, Admit(u, i), places, us);
    }
  }

  lemma RoomForOne(s: State, u: State, ids: seq<Id>, i: Id, t: TaskId, criterion: string, us: set<TaskId>)
    requires Fit(s, us) && i in s.store && s.store[i].task == t && s.store[i].criterion == criterion && i !in ids
    requires Displaces(s, ids, i, t, criterion)
    requires ids == [] <==> |Kin(s.store, t, criterion)| < MaxQueued(s, i)
    requires Kin(u.store, t, criterion) <= Kin(s.store, t, criterion)
    requires PolicyOf(s, t) == NoWait ==> forall x <- ids :: x !in Kin(u.store, t, criterion)
    ensures t in us ==> |Kin(u.store, t, criterion)| < MaxQueued(s, i)
  {
    if t in us {
      MaxIs(s, i);
      assert |Kin(s.store, t, criterion)| <= MaxQueued(s, i);
      hide Kin, Front, MaxQueued, Guarded;
      var kin, left := Kin(s.store, t, criterion), Kin(u.store, t, criterion);
      if ids == [] {
        SmallerSet(left, kin);
      } else {
        assert ids[0] in ids && ids[0] in kin && ids[0] !in left;
        SmallerSet(left, kin - {ids[0]});
        assert kin == kin - {ids[0]} + {ids[0]};
      }
    }
  }

  lemma {:induction false} CancelAllHolds(s: State, ids: seq<Id>, i: Id, t: TaskId, criterion: string, except: set<Id>,
                                          act: Answers, places: set<Place>, us: set<TaskId>,
                                          limbo: set<Id>, steady: bool)
    requires Ready(s, places, us, limbo, steady) && QueueOf(t, criterion) !in places
    requires Closes(s, act, places, QueueOf(t, criterion))
    requires Displaces(s, ids, i, t, criterion) && Cancels(s, ids, except)
    requires CancelAllAlike(s, ids, act) && NoForce(CancelAll(s, ids))
    ensures var u := CancelAll(s, ids);
            && Holds(s, u, places, us) && Kin(u.store, t, criterion) <= Kin(s.store, t, criterion)
            && (PolicyOf(s, t) == NoWait ==> forall x <- ids :: x !in Kin(u.store, t, criterion))
    decreases |s.script|, 4, |ids|
  {
    hide *;
    CancelAllCases(s, ids);
    ReadyParts(s, places, us, limbo, steady);
    if ids == [] {
      SameStoreHolds(s, s, places, us);
    } else {
      var x := ids[0];
      var v := Cancel(s, x);
      var u := CancelAll(s, ids);
      var p := QueueOf(t, criterion);
      InvShape(s, limbo, steady);
      CancelAllAlikeCases(s, ids, act);
      DisplacesFull(s, ids, i, t, criterion);
      FirstUnforced(s, ids, except, limbo, steady);
      OneGoes(s, x, act, places, us, limbo, steady);
      GoneHolds(s, v, x, places, us);
      ReadyStays(s, v, {x}, places, us, limbo, steady);
      ClosesStays(s, v, act, places, p);
      DisplacesStays(s, v, ids, i, t, criterion);
      CancelAllHolds(v, ids[1..], i, t, criterion, except, act, places, us, limbo, steady);
      HoldsTrans(s, v, u, places, us);
      SamePolicyOf(s, v, t);
      forall y <- ids ensures PolicyOf(s, t) == NoWait ==> y !in Kin(u.store, t, criterion) {
        assert y == x || y in ids[1..];
      }
    }
  }

  lemma SamePolicyOf(s: State, t: State, task: TaskId)
    requires t.cfg == s.cfg
    ensures PolicyOf(t, task) == PolicyOf(s, task)
  {
  }

  /** An instance is canceled: it may leave its queue, and does if it does not wait; the others stay. */
  ghost predicate Goes(s: State, t: State, x: Id, places: set<Place>, us: set<TaskId>) {
    && x in s.store && Fit(t, us)
    && (var p := QueueOf(s.store[x].task, s.store[x].criterion);
        var kin := Kin(s.store, p.task, p.criterion);
        var left := Kin(t.store, p.task, p.criterion);
        && SameKin(s, t, places - {p})
        && (left == kin - {x} || (left == kin && IsHerder(s.store, x) && PolicyOf(s, p.task) != NoWait)))
  }

  lemma GoneHolds(s: State, t: State, x: Id, places: set<Place>, us: set<TaskId>)
    requires Goes(s, t, x, places, us)
    ensures x in s.store
    ensures QueueOf(s.store[x].task, s.store[x].criterion) !in places ==> Holds(s, t, places, us)
    ensures var kin := Kin(s.store, s.store[x].task, s.store[x].criterion);
            var left := Kin(t.store, s.store[x].task, s.store[x].criterion);
            && left <= kin && (left == kin - {x} || (left == kin && IsHerder(s.store, x)))
            && (PolicyOf(s, s.store[x].task) == NoWait ==> x !in left)
  {
    var p := QueueOf(s.store[x].task, s.store[x].criterion);
    assert p !in places ==> places - {p} == places;
    hide Kin, Fit, SameKin, IsHerder, PolicyOf;
  }

  lemma {:induction false} OneGoes(s: State, x: Id, act: Answers, places: set<Place>, us: set<TaskId>,
                                   limbo: set<Id>, steady: bool)
    requires Ready(s, places, us, limbo, steady) && x in s.store && Unready(s.store, x)
    requires QueueOf(s.store[x].task, s.store[x].criterion) !in places
    requires Closes(s, act, places, QueueOf(s.store[x].task, s.store[x].criterion))
    requires IsHerder(s.store, x) ==> Full(s, QueueOf(s.store[x].task, s.store[x].criterion))
    requires CancelAlike(s, x, act) && NoForce(Cancel(s, x))
    ensures Goes(s, Cancel(s, x), x, places, us)
    decreases |s.script|, 3, 1
  {
    hide *;
    var t, criterion := s.store[x].task, s.store[x].criterion;
    var p := QueueOf(t, criterion);
    HerderIfOwn(s, x);
    ReadyParts(s, places, us, limbo, steady);
    if !IsHerder(s.store, x) {
      SheepGoes(s, x, places, us, limbo, steady);
    } else {
      OneMoreFull(s, places, p);
      ReadyParts(s, places + {p}, us, limbo, steady);
      AnswersAre(act, t, criterion);
      OnePlaceFurther(s, act, places, p);
      CancelHolds(s, x, act, places + {p}, us, limbo, steady);
      GoesNarrower(s, Cancel(s, x), x, places + {p}, places, us);
    }
  }

  lemma OneMoreFull(s: State, places: set<Place>, p: Place)
    requires AllFull(s, places) && Full(s, p)
    ensures AllFull(s, places + {p})
  {
    hide Full;
  }

  lemma GoesNarrower(s: State, t: State, x: Id, places: set<Place>, fewer: set<Place>, us: set<TaskId>)
    requires Goes(s, t, x, places, us) && fewer <= places
    ensures Goes(s, t, x, fewer, us)
  {
    hide Kin, Fit, IsHerder, PolicyOf;
  }

  /** A sheep is canceled without further ado. */
  lemma SheepGoes(s: State, x: Id, places: set<Place>, us: set<TaskId>, limbo: set<Id>, steady: bool)
    requires Inv(s, limbo, steady) && Fit(s, us) && x in s.store && Unready(s.store, x) && s.store[x].herd != x
    ensures Goes(s, Cancel(s, x), x, places, us)
  {
    hide *;
    var u := Cancel(s, x);
    CancelCases(s, x);
    InvShape(s, limbo, steady);
    DropSheepLine(s, x, false, limbo, steady);
    DropSheepCalmer(s, x, false, limbo, steady);
    DropSheepConfig(s, x, limbo, steady);
    FitLine(s, u, {x}, us);
    OneLeaves(s, u, x, places, us);
  }

  lemma OneLeaves(s: State, t: State, x: Id, places: set<Place>, us: set<TaskId>)
    requires KeepsLine(s.store, t.store, {x}) && x in s.store && Fit(t, us)
    requires x in t.store && !Unready(t.store, x)
    ensures Goes(s, t, x, places, us)
  {
    var p := QueueOf(s.store[x].task, s.store[x].criterion);
    assert Kin(t.store, p.task, p.criterion) == Kin(s.store, p.task, p.criterion) - {x} by { hide Fit; }
    hide Fit, IsHerder, PolicyOf, Unready;
    forall q <- places - {p} | q.QueueOf?
      ensures Kin(t.store, q.task, q.criterion) == Kin(s.store, q.task, q.criterion)
    {
      hide StatusOf;
    }
  }

  /** A herder that has not started is canceled, in a full queue: what its finish actions ask for leads
      nowhere back. */
  lemma {:induction false} CancelHolds(s: State, x: Id, act: Answers, places: set<Place>, us: set<TaskId>,
                                       limbo: set<Id>, steady: bool)
    requires Ready(s, places, us, limbo, steady) && x in s.store && IsHerder(s.store, x) && Unready(s.store, x)
    requires QueueOf(s.store[x].task, s.store[x].criterion) in places
    requires forall r <- act.onCancel(s.store[x].task) :: RequestCloses(s, act, places, r)
    requires CancelAlike(s, x, act) && NoForce(Cancel(s, x))
    ensures Goes(s, Cancel(s, x), x, places, us)
    ensures forall r <- act.onCancel(s.store[x].task) :: !Leads(s, places, r)
    decreases |s.script|, 3, 0
  {
    hide *;
    var u := CancelHerd(s, x);
    var w := Watch(u, x);
    var v := Trigger(w, x);
    var z := Cancel(s, x);
    ReadyParts(s, places, us, limbo, steady);
    WatchIsReady(s, x, act, places, us, limbo, steady);
    ReadyParts(w, places, us, limbo, steady);
    TriggerKeeps(w, x, limbo, steady);
    RequestsStay(s, w, act, places);
    CancelEnds(s, x, act, places, limbo, steady);
    ForceBefore(v, z, {x});
    AnswerHolds(w, x, act.onCancel(s.store[x].task), act, places, us, limbo, steady);
    HoldsTrans(s, w, v, places, us);
    HoldsParts(w, v, places, us);
    AnchoredStays(w, v, x, places);
    EndGoes(s, x, act, places, us, limbo, steady);
  }

  /** Before its actions run, the herder is as it was. */
  lemma WatchIsReady(s: State, x: Id, act: Answers, places: set<Place>, us: set<TaskId>, limbo: set<Id>, steady: bool)
    requires Ready(s, places, us, limbo, steady) && x in s.store && IsHerder(s.store, x) && Unready(s.store, x)
    requires QueueOf(s.store[x].task, s.store[x].criterion) in places && CancelAlike(s, x, act)
    ensures var w := Watch(CancelHerd(s, x), x);
            && Ready(w, places, us, limbo, steady) && Holds(s, w, places, us) && Later(s, w, {})
            && w.cfg == s.cfg && w.enabled == s.enabled && w.script == s.script
            && x in w.store && w.store[x] == s.store[x] && w.store[x].herd == x && Anchored(w, x, places)
            && Answered(w, x, act.onCancel(s.store[x].task), act) && Shape(w)
  {
    hide *;
    var u := CancelHerd(s, x);
    var w := Watch(u, x);
    ReadyParts(s, places, us, limbo, steady);
    InvShape(s, limbo, steady);
    HerderIn(s.store, x);
    InstFacts(s, x, limbo, steady);
    CancelHerdInv(s, x, limbo, steady);
    CancelHerdLine(s, x, limbo, steady);
    SameConfig(s, u, {});
    LineHolds(s, u, places, us);
    ReadyStays(s, u, {}, places, us, limbo, steady);
    UnreadyIsStoppable(s, u, x, limbo);
    StoppableFacts(u, x, limbo);
    CancelAlikeCases(s, x, act);
    StopHerderAlikeCases(u, x, act);
    WatchIsAside(u, x, limbo, steady);
    WatchIndexes(u, x);
    ReadyParts(u, places, us, limbo, steady);
    SameStoreHolds(u, w, places, us);
    ReadyStays(u, w, {}, places, us, limbo, steady);
    HoldsTrans(s, u, w, places, us);
    LaterThen(s, u, w, {});
    InvShape(w, limbo, steady);
    UnreadyIsAnchored(s, w, x, places);
  }

  lemma UnreadyIsAnchored(s: State, w: State, x: Id, places: set<Place>)
    requires x in s.store && IsHerder(s.store, x) && Unready(s.store, x)
    requires QueueOf(s.store[x].task, s.store[x].criterion) in places
    requires x in w.store && w.store[x] == s.store[x]
    ensures Anchored(w, x, places) && IsHerder(w.store, x)
  {
    hide StatusOf;
  }

  /** After its actions have run, it finishes or is left as it is. */
  lemma CancelEnds(s: State, x: Id, act: Answers, places: set<Place>, limbo: set<Id>, steady: bool)
    requires Inv(s, limbo, steady) && x in s.store && IsHerder(s.store, x) && Unready(s.store, x)
    ensures var v := Trigger(Watch(CancelHerd(s, x), x), x);
            && Inv(v, limbo, steady) && Later(s, v, {}) && Later(v, Cancel(s, x), {x}) && x in v.store
            && IsHerder(v.store, x) && Coherent(v.store[x])
            && (Cancel(s, x) == FinishHerder(v, x, false)
                || (Cancel(s, x) == Soil(v, x) && PolicyOf(v, v.store[x].task) != NoWait))
  {
    hide *;
    var u := CancelHerd(s, x);
    var w := Watch(u, x);
    var v := Trigger(w, x);
    CancelCases(s, x);
    HerderIn(s.store, x);
    InvShape(s, limbo, steady);
    InstFacts(s, x, limbo, steady);
    CancelHerdInv(s, x, limbo, steady);
    UnreadyIsStoppable(s, u, x, limbo);
    StoppableFacts(u, x, limbo);
    StopHerderCases(u, x, false);
    WatchIsAside(u, x, limbo, steady);
    TriggerKeeps(w, x, limbo, steady);
    InvShape(u, limbo, steady);
    InvShape(v, limbo, steady);
    LaterThen(u, w, v, {});
    LaterThen(s, u, v, {});
    NotRunning(u, v, x, limbo, steady);
    FinishHerderLater(v, x, false);
    SoilIsAside(v, x, limbo, steady);
    LaterWeaken(v, Soil(v, x), {}, {x});
  }

  lemma EndGoes(s: State, x: Id, act: Answers, places: set<Place>, us: set<TaskId>, limbo: set<Id>, steady: bool)
    requires Inv(s, limbo, steady) && x in s.store && IsHerder(s.store, x) && Unready(s.store, x)
    requires Holds(s, Trigger(Watch(CancelHerd(s, x), x), x), places, us)
    requires QueueOf(s.store[x].task, s.store[x].criterion) in places
    ensures Goes(s, Cancel(s, x), x, places, us)
  {
    hide *;
    var v := Trigger(Watch(CancelHerd(s, x), x), x);
    var z := Cancel(s, x);
    CancelEnds(s, x, act, places, limbo, steady);
    PolicyStays(s, v, x);
    HoldsParts(s, v, places, us);
    if z == FinishHerder(v, x, false) {
      FinishHerderLine(v, x, false);
      FinishHerderCalmer(v, x, false);
      FinishHerderSetting(v, x, false);
      SameSettingConfig(v, z);
      FitLine(v, z, {x}, us);
      FinishedIsReady(z.store, x);
      OneLeaves(v, z, x, places, us);
      SameMax(s, v, {}, x);
      GoesAfter(s, v, z, x, places, us);
    } else {
      SoilStore(v, x);
      SoilConfig(v, x);
      SameStoreHolds(v, z, places, us);
      HoldsTrans(s, v, z, places, us);
      StaysPut(s, z, x, places, us);
    }
  }

  lemma GoesAfter(s: State, v: State, z: State, x: Id, places: set<Place>, us: set<TaskId>)
    requires x in s.store && x in v.store && v.store[x].task == s.store[x].task
    requires v.store[x].criterion == s.store[x].criterion && SameKin(s, v, places) && Goes(v, z, x, places, us)
    requires QueueOf(s.store[x].task, s.store[x].criterion) in places
    requires PolicyOf(v, s.store[x].task) == PolicyOf(s, s.store[x].task)
    requires IsHerder(s.store, x)
    ensures Goes(s, z, x, places, us)
  {
    hide Kin, Fit, IsHerder, PolicyOf;
  }

  lemma StaysPut(s: State, z: State, x: Id, places: set<Place>, us: set<TaskId>)
    requires x in s.store && IsHerder(s.store, x) && PolicyOf(s, s.store[x].task) != NoWait
    requires Holds(s, z, places, us) && QueueOf(s.store[x].task, s.store[x].criterion) in places
    ensures Goes(s, z, x, places, us)
  {
    hide Kin, Fit, IsHerder, PolicyOf;
  }
}
