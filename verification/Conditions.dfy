/** Wait conditions of herded task instances: the operators, the counters that evaluate them,
    the table giving the cancel operator of a queue operator, and the guessed cancel condition. */
module Conditions {
  import opened TaskStatus

  type Id = nat

  datatype Operator =
    | AllFinished | AnyFinished
    | AllSuccess | AllFailure | AllCanceled
    | NoSuccess | NoFailure | NoCanceled
    | AnySuccess | AnyFailure | AnyCanceled
    | AnyNonSuccess | AnyNonFailure | AnyNonCanceled
    | AllFinishedAnySuccess | AllFinishedAnyFailure | AllFinishedAnyCanceled
    | AllStarted | AnyStarted
    | IsEmpty | IsNotEmpty | True | False
    | UnknownOperator

  function Conjugate(op: Operator): Operator {
    match op
    case AllFinished => False
    case AnyFinished => IsEmpty
    case AllSuccess => AnyNonSuccess
    case AllFailure => AnyNonFailure
    case AllCanceled => AnyNonCanceled
    case NoSuccess => AnySuccess
    case NoFailure => AnyFailure
    case NoCanceled => AnyCanceled
    case AnySuccess => NoSuccess
    case AnyFailure => NoFailure
    case AnyCanceled => NoCanceled
    case AnyNonSuccess => AllSuccess
    case AnyNonFailure => AllFailure
    case AnyNonCanceled => AllCanceled
    case AllFinishedAnySuccess => NoSuccess
    case AllFinishedAnyFailure => NoFailure
    case AllFinishedAnyCanceled => NoCanceled
    case AllStarted => False
    case AnyStarted => IsEmpty
    case IsEmpty => IsNotEmpty
    case IsNotEmpty => IsEmpty
    case True => False
    case False => True
    case UnknownOperator => UnknownOperator
  }

  // ---------------------------------------------------------------------------------------------
  // What an operator means, in terms of the statuses of the awaited instances
  // ---------------------------------------------------------------------------------------------

  type Statuses = map<Id, Status>

  ghost predicate All(m: Statuses, p: Status -> bool) {
    forall i <- m :: p(m[i])
  }

  ghost predicate Any(m: Statuses, p: Status -> bool) {
    exists i <- m :: p(m[i])
  }

  ghost predicate Meaning(op: Operator, m: Statuses) {
    match op
    case AllFinished => All(m, Finished)
    case AnyFinished => Any(m, Finished)
    case AllSuccess => All(m, Succeeded)
    case AllFailure => All(m, Failed)
    case AllCanceled => All(m, WasCanceled)
    case NoSuccess => All(m, FinishedUnsuccessful)
    case NoFailure => All(m, FinishedUnfailed)
    case NoCanceled => All(m, FinishedUncanceled)
    case AnySuccess => Any(m, Succeeded)
    case AnyFailure => Any(m, Failed)
    case AnyCanceled => Any(m, WasCanceled)
    case AnyNonSuccess => Any(m, FinishedUnsuccessful)
    case AnyNonFailure => Any(m, FinishedUnfailed)
    case AnyNonCanceled => Any(m, FinishedUncanceled)
    case AllFinishedAnySuccess => All(m, Finished) && Any(m, Succeeded)
    case AllFinishedAnyFailure => All(m, Finished) && Any(m, Failed)
    case AllFinishedAnyCanceled => All(m, Finished) && Any(m, WasCanceled)
    case AllStarted => All(m, Started)
    case AnyStarted => Any(m, Started)
    case IsEmpty => m == map[]
    case IsNotEmpty => m != map[]
    case True => true
    case False => false
    case UnknownOperator => false
  }

  /** The instances a wait condition looks at: those of the herd whose id is awaited. */
  function Awaited(ids: set<Id>, herd: Statuses): Statuses {
    map i | i in herd && i in ids :: herd[i]
  }

  // ---------------------------------------------------------------------------------------------
  // The counters
  // ---------------------------------------------------------------------------------------------

  // Named so that a class of statuses is the same function value wherever it is used.
  predicate Succeeded(s: Status) { s.Success? }
  predicate Failed(s: Status) { s.Failure? }
  predicate WasCanceled(s: Status) { s.Canceled? }
  predicate Unfinished(s: Status) { !Finished(s) }
  predicate Unstarted(s: Status) { !Started(s) }
  predicate FinishedUnsuccessful(s: Status) { s.Failure? || s.Canceled? }
  predicate FinishedUnfailed(s: Status) { s.Success? || s.Canceled? }
  predicate FinishedUncanceled(s: Status) { s.Success? || s.Failure? }

  /** The instances whose status is in a given class, and how many they are. */
  ghost function Those(m: Statuses, p: Status -> bool): set<Id> {
    set i | i in m && p(m[i])
  }

  ghost function Count(m: Statuses, p: Status -> bool): nat {
    |Those(m, p)|
  }

  lemma CountIsZero(m: Statuses, p: Status -> bool)
    ensures Count(m, p) == 0 <==> !Any(m, p)
  {
    if Any(m, p) {
      var i :| i in m && p(m[i]);
      assert i in Those(m, p);
    } else {
      assert Those(m, p) == {};
    }
  }

  lemma CountGrows(m: Statuses, i: Id, s: Status, p: Status -> bool)
    requires i !in m
    ensures Count(m[i := s], p) == Count(m, p) + if p(s) then 1 else 0
  {
    assert Those(m[i := s], p) == if p(s) then Those(m, p) + {i} else Those(m, p);
  }

  lemma CountJoins(m: Statuses, p: Status -> bool, q: Status -> bool, r: Status -> bool)
    requires forall s :: r(s) <==> p(s) || q(s)
    requires forall s :: !(p(s) && q(s))
    ensures Count(m, r) == Count(m, p) + Count(m, q)
  {
    assert Those(m, r) == Those(m, p) + Those(m, q);
    assert Those(m, p) !! Those(m, q);
  }

  lemma CountSplits(m: Statuses, p: Status -> bool, q: Status -> bool)
    requires forall s :: p(s) <==> !q(s)
    ensures |m.Keys| == Count(m, p) + Count(m, q)
  {
    assert m.Keys == Those(m, p) + Those(m, q);
    assert Those(m, p) !! Those(m, q);
  }

  /** The awaited instances already looked at when those in todo remain. */
  function Seen(ids: set<Id>, tasks: Statuses, todo: set<Id>): Statuses {
    map i | i in tasks && i in ids && i !in todo :: tasks[i]
  }

  lemma OneMoreSeen(ids: set<Id>, tasks: Statuses, todo: set<Id>, id: Id)
    requires id in todo && id in tasks
    ensures id !in ids ==> Seen(ids, tasks, todo - {id}) == Seen(ids, tasks, todo)
    ensures id in ids ==>
              var before, after := Seen(ids, tasks, todo), Seen(ids, tasks, todo - {id});
              && Count(after, Unstarted)
                 == Count(before, Unstarted) + (if Unstarted(tasks[id]) then 1 else 0)
              && Count(after, Unfinished)
                 == Count(before, Unfinished) + (if Unfinished(tasks[id]) then 1 else 0)
              && Count(after, WasCanceled)
                 == Count(before, WasCanceled) + (if WasCanceled(tasks[id]) then 1 else 0)
              && Count(after, Failed) == Count(before, Failed) + (if Failed(tasks[id]) then 1 else 0)
              && Count(after, Succeeded)
                 == Count(before, Succeeded) + (if Succeeded(tasks[id]) then 1 else 0)
  {
    if id in ids {
      var before := Seen(ids, tasks, todo);
      assert Seen(ids, tasks, todo - {id}) == before[id := tasks[id]];
      CountGrows(before, id, tasks[id], Unstarted);
      CountGrows(before, id, tasks[id], Unfinished);
      CountGrows(before, id, tasks[id], WasCanceled);
      CountGrows(before, id, tasks[id], Failed);
      CountGrows(before, id, tasks[id], Succeeded);
    } else {
      assert Seen(ids, tasks, todo - {id}) == Seen(ids, tasks, todo);
    }
  }

  ghost predicate Counts(m: Statuses, unstarted: nat, unfinished: nat, canceled: nat, failure: nat, success: nat) {
    && unstarted == Count(m, Unstarted)
    && unfinished == Count(m, Unfinished)
    && canceled == Count(m, WasCanceled)
    && failure == Count(m, Failed)
    && success == Count(m, Succeeded)
  }

  lemma OneMoreCounted(ids: set<Id>, tasks: Statuses, todo: set<Id>, id: Id, u: nat, n: nat, c: nat, f: nat, s: nat)
    requires Counts(Seen(ids, tasks, todo), u, n, c, f, s) && id in todo && id in tasks
    ensures var after := Seen(ids, tasks, todo - {id});
            if id !in ids then Counts(after, u, n, c, f, s)
            else match tasks[id]
              case Canceled => Counts(after, u, n, c + 1, f, s)
              case Failure => Counts(after, u, n, c, f + 1, s)
              case Success => Counts(after, u, n, c, f, s + 1)
              case Planned => Counts(after, u + 1, n + 1, c, f, s)
              case Queued => Counts(after, u + 1, n + 1, c, f, s)
              case Running => Counts(after, u, n + 1, c, f, s)
              case Waiting => Counts(after, u, n + 1, c, f, s)
  {
    OneMoreSeen(ids, tasks, todo, id);
    hide Seen, Count;
  }

  class Counters {
    var unstarted: nat
    var unfinished: nat
    var canceled: nat
    var failure: nat
    var success: nat

    ghost predicate Counting(m: Statuses)
      reads this
    {
      Counts(m, unstarted, unfinished, canceled, failure, success)
    }

    constructor (ids: set<Id>, tasks: Statuses)
      ensures Counting(Awaited(ids, tasks))
    {
      unstarted, unfinished, canceled, failure, success := 0, 0, 0, 0, 0;
      new;
      var todo := tasks.Keys;
      assert Seen(ids, tasks, todo) == map[];
      while todo != {}
        invariant todo <= tasks.Keys
        invariant Counting(Seen(ids, tasks, todo))
        modifies this
        decreases todo
      {
        var id :| id in todo;
        OneMoreCounted(ids, tasks, todo, id, unstarted, unfinished, canceled, failure, success);
        todo := todo - {id};
        hide Seen, Counts;
        if id in ids {
          match tasks[id] {
            case Canceled => canceled := canceled + 1;
            case Failure => failure := failure + 1;
            case Success => success := success + 1;
            case Planned => unstarted := unstarted + 1; unfinished := unfinished + 1;
            case Queued => unstarted := unstarted + 1; unfinished := unfinished + 1;
            case Running => unfinished := unfinished + 1;
            case Waiting => unfinished := unfinished + 1;
          }
        }
      }
      assert Seen(ids, tasks, todo) == Awaited(ids, tasks);
    }

    predicate Evaluate(op: Operator)
      reads this
    {
      match op
      case AllFinished => unfinished == 0
      case AnyFinished => canceled + failure + success != 0
      case AllSuccess => unfinished + canceled + failure == 0
      case AllFailure => unfinished + canceled + success == 0
      case AllCanceled => unfinished + failure + success == 0
      case NoSuccess => unfinished + success == 0
      case NoFailure => unfinished + failure == 0
      case NoCanceled => unfinished + canceled == 0
      case AnySuccess => success != 0
      case AnyFailure => failure != 0
      case AnyCanceled => canceled != 0
      case AnyNonSuccess => canceled + failure != 0
      case AnyNonFailure => canceled + success != 0
      case AnyNonCanceled => failure + success != 0
      case AllFinishedAnySuccess => unfinished == 0 && success != 0
      case AllFinishedAnyFailure => unfinished == 0 && failure != 0
      case AllFinishedAnyCanceled => unfinished == 0 && canceled != 0
      case AllStarted => unstarted == 0
      case AnyStarted => canceled + failure + success + unfinished > unstarted
      case IsEmpty => unfinished + canceled + failure + success == 0
      case IsNotEmpty => unfinished + canceled + failure + success != 0
      case True => true
      case False => false
      case UnknownOperator => false
    }

    /** The arithmetic on the five counters decides exactly what the operator says. */
    lemma EvaluateDecidesMeaning(op: Operator, m: Statuses)
      requires Counting(m)
      ensures Evaluate(op) <==> Meaning(op, m)
    {
      CountIsZero(m, Unstarted);
      CountIsZero(m, Unfinished);
      CountIsZero(m, WasCanceled);
      CountIsZero(m, Failed);
      CountIsZero(m, Succeeded);
      if op == AnyStarted {
        StartedOutnumber(m);
      }
    }
  }

  /** Every instance falls in exactly one of the four classes, so the sum beats the unstarted
      count exactly when somebody started. */
  lemma StartedOutnumber(m: Statuses)
    ensures Any(m, Started)
       <==> Count(m, WasCanceled) + Count(m, Failed) + Count(m, Succeeded) + Count(m, Unfinished)
            > Count(m, Unstarted)
  {
    CountSplits(m, Unfinished, Finished);
    CountSplits(m, Unstarted, Started);
    CountJoins(m, Succeeded, FinishedUnsuccessful, Finished);
    CountJoins(m, Failed, WasCanceled, FinishedUnsuccessful);
    CountIsZero(m, Started);
  }

  // ---------------------------------------------------------------------------------------------
  // A queue operator and its conjugate
  // ---------------------------------------------------------------------------------------------

  lemma NeverBoth(op: Operator, m: Statuses)
    ensures !(Meaning(op, m) && Meaning(Conjugate(op), m))
  {
  }

  lemma ExactlyOneOnceFinished(op: Operator, m: Statuses)
    requires op != UnknownOperator
    requires forall i <- m :: Finished(m[i])
    ensures Meaning(op, m) != Meaning(Conjugate(op), m)
  {
    NeverBoth(op, m);
    if m != map[] {
      var i :| i in m;
      assert i in m && Finished(m[i]);
    }
  }

  /** A way in which the awaited instances may all end: those that are finished stay as they are. */
  ghost predicate Outcome(m: Statuses, n: Statuses) {
    m.Keys == n.Keys && forall i <- m :: Finished(n[i]) && (Finished(m[i]) ==> n[i] == m[i])
  }

  /** The most favourable outcome for an operator. */
  function Favourable(op: Operator, m: Statuses): Statuses {
    map i | i in m :: if Finished(m[i]) then m[i] else Satisfying(op)
  }

  lemma FavourableIsOutcome(op: Operator, m: Statuses)
    ensures Outcome(m, Favourable(op, m))
    ensures forall i <- m :: Favourable(op, m)[i] == if Finished(m[i]) then m[i] else Satisfying(op)
  {
  }

  lemma FavourableToAll(op: Operator, m: Statuses, n: Statuses)
    requires op != UnknownOperator && !Meaning(Conjugate(op), m) && !AsksForSome(op)
    requires m.Keys == n.Keys && forall i <- m :: n[i] == if Finished(m[i]) then m[i] else Satisfying(op)
    ensures Meaning(op, n)
  {
    if op == IsEmpty {
      assert m == map[] && n.Keys == {};
    }
  }

  lemma FavourableToSome(op: Operator, m: Statuses, n: Statuses, j: Id)
    requires !Meaning(Conjugate(op), m) && AsksForSome(op) && j in m && !Finished(m[j])
    requires m.Keys == n.Keys && forall i <- m :: n[i] == if Finished(m[i]) then m[i] else Satisfying(op)
    ensures Meaning(op, n)
  {
    assert j in n && n[j] == Satisfying(op);
    assert IsNotEmpty == op ==> n != map[];
  }

  lemma FavourableHolds(op: Operator, m: Statuses)
    requires op != UnknownOperator && !Meaning(Conjugate(op), m)
    ensures Outcome(m, Favourable(op, m)) && Meaning(op, Favourable(op, m))
  {
    var n := Favourable(op, m);
    FavourableIsOutcome(op, m);
    if j :| j in m && !Finished(m[j]) {
      if AsksForSome(op) {
        FavourableToSome(op, m, n, j);
      } else {
        FavourableToAll(op, m, n);
      }
    } else {
      ExactlyOneOnceFinished(op, m);
      assert n == m;
    }
    hide *;
  }

  lemma OutOfReach(op: Operator, m: Statuses, n: Statuses)
    requires op != UnknownOperator && Meaning(Conjugate(op), m) && Outcome(m, n)
    ensures !Meaning(op, n)
  {
    if m == map[] {
      assert n == map[] && n == m;
      NeverBoth(op, m);
    }
  }

  /** The operator of a guessed cancel condition holds exactly when the queue operator cannot hold any
      more, however the awaited instances end. */
  lemma ConjugateExactly(op: Operator, m: Statuses)
    requires op != UnknownOperator
    ensures Meaning(Conjugate(op), m) <==> forall n: Statuses :: Outcome(m, n) ==> !Meaning(op, n)
  {
    if Meaning(Conjugate(op), m) {
      forall n: Statuses | Outcome(m, n) ensures !Meaning(op, n) {
        OutOfReach(op, m, n);
      }
    } else {
      FavourableHolds(op, m);
    }
  }

  /** The same awaited instances, each at the same status or further along. */
  ghost predicate Advances(m: Statuses, n: Statuses) {
    m.Keys == n.Keys && forall i <- m :: CanBecome(m[i], n[i])
  }

  lemma OnceTrueStaysTrue(op: Operator, m: Statuses, n: Statuses)
    requires Advances(m, n) && Meaning(op, m)
    ensures Meaning(op, n)
  {
    match op
    case AnyFinished => var i :| i in m && Finished(m[i]); assert i in n && n[i] == m[i];
    case AnySuccess => var i :| i in m && m[i].Success?; assert i in n && n[i] == m[i];
    case AnyFailure => var i :| i in m && m[i].Failure?; assert i in n && n[i] == m[i];
    case AnyCanceled => var i :| i in m && m[i].Canceled?; assert i in n && n[i] == m[i];
    case AnyNonSuccess =>
      var i :| i in m && (m[i].Failure? || m[i].Canceled?); assert i in n && n[i] == m[i];
    case AnyNonFailure =>
      var i :| i in m && (m[i].Success? || m[i].Canceled?); assert i in n && n[i] == m[i];
    case AnyNonCanceled =>
      var i :| i in m && (m[i].Success? || m[i].Failure?); assert i in n && n[i] == m[i];
    case AllFinishedAnySuccess => var i :| i in m && m[i].Success?; assert i in n && n[i] == m[i];
    case AllFinishedAnyFailure => var i :| i in m && m[i].Failure?; assert i in n && n[i] == m[i];
    case AllFinishedAnyCanceled => var i :| i in m && m[i].Canceled?; assert i in n && n[i] == m[i];
    case AnyStarted => var i :| i in m && Started(m[i]); assert i in n && Started(n[i]);
    case IsEmpty => assert m.Keys == {};
    case IsNotEmpty => assert m.Keys != {};
    case _ =>
  }

  // ---------------------------------------------------------------------------------------------
  // Conditions, and the cancel condition guessed when a sheep is planned without one
  // ---------------------------------------------------------------------------------------------

  /** A null condition, a wait on the instances its expression evaluates to, or a disjunction. */
  datatype Condition =
    | NullCondition
    | TaskWait(op: Operator, ids: set<Id>)
    | Disjunction(terms: seq<Condition>)

  predicate Empty(c: Condition) {
    c.NullCondition? || (c.Disjunction? && |c.terms| == 0)
  }

  ghost predicate Holds(c: Condition, herd: Statuses) {
    match c
    case NullCondition => false
    case TaskWait(op, ids) => Meaning(op, Awaited(ids, herd))
    case Disjunction(terms) => |terms| == 0 || exists t | t in terms :: Holds(t, herd)
  }

  /** What the scheduler computes: the counters for a wait, a scan of the terms for a disjunction. */
  method Evaluate(c: Condition, herd: Statuses) returns (b: bool)
    ensures b <==> Holds(c, herd)
    decreases c
  {
    match c
    case NullCondition =>
      b := false;
    case TaskWait(op, ids) =>
      var counters := new Counters(ids, herd);
      counters.EvaluateDecidesMeaning(op, Awaited(ids, herd));
      b := counters.Evaluate(op);
    case Disjunction(terms) =>
      if |terms| == 0 {
        return true;
      }
      for k := 0 to |terms|
        invariant forall j :: 0 <= j < k ==> !Holds(terms[j], herd)
      {
        var holds := Evaluate(terms[k], herd);
        if holds {
          return true;
        }
      }
      b := false;
  }

  function Guess(queuewhen: Condition, cancelwhen: Condition): Condition {
    if !Empty(cancelwhen) then cancelwhen
    else if queuewhen.Disjunction? && |queuewhen.terms| != 1 then cancelwhen
    else
      var only := if queuewhen.Disjunction? then queuewhen.terms[0] else queuewhen;
      if only.TaskWait? then TaskWait(Conjugate(only.op), only.ids) else cancelwhen
  }

  /** A wait condition with a known operator, alone or as the only term of a disjunction. */
  predicate Guessable(c: Condition) {
    || (c.TaskWait? && c.op != UnknownOperator)
    || (c.Disjunction? && |c.terms| == 1 && c.terms[0].TaskWait? && c.terms[0].op != UnknownOperator)
  }

  function Wait(c: Condition): Condition
    requires Guessable(c)
  {
    if c.TaskWait? then c else c.terms[0]
  }

  datatype Verdict = Undecided | Enqueue | Cancel

  /** What reevaluating a planned sheep decides: the queue condition is looked at first. */
  ghost function Decide(queuewhen: Condition, cancelwhen: Condition, herd: Statuses): Verdict {
    if Holds(queuewhen, herd) then Enqueue
    else if Holds(cancelwhen, herd) then Cancel
    else Undecided
  }

  lemma GuessedPair(q: Condition, c: Condition, herd: Statuses)
    requires Guessable(q) && Empty(c)
    ensures Holds(q, herd) <==> Meaning(Wait(q).op, Awaited(Wait(q).ids, herd))
    ensures Holds(Guess(q, c), herd)
       <==> Meaning(Conjugate(Wait(q).op), Awaited(Wait(q).ids, herd))
  {
    if q.Disjunction? {
      assert q.terms[0] in q.terms;
    }
  }

  /** A history of the statuses of the awaited instances. */
  ghost predicate IsHistory(run: seq<Statuses>, ids: set<Id>) {
    forall k :: 0 < k < |run| ==> Advances(Awaited(ids, run[k-1]), Awaited(ids, run[k]))
  }

  lemma HistoryAdvances(run: seq<Statuses>, ids: set<Id>, j: nat, k: nat)
    requires IsHistory(run, ids) && j <= k < |run|
    ensures Advances(Awaited(ids, run[j]), Awaited(ids, run[k]))
    decreases k - j
  {
    if j < k {
      HistoryAdvances(run, ids, j, k - 1);
    }
  }

  /** The verdict reached by reevaluating only at the given moments of a history. */
  ghost function Settle(q: Condition, c: Condition, run: seq<Statuses>, polls: set<nat>): Verdict {
    if |run| == 0 then Undecided
    else
      var last := |run| - 1;
      var before := Settle(q, c, run[..last], polls);
      if before != Undecided || last !in polls then before else Decide(q, c, run[last])
  }

  lemma SettledSomewhere(q: Condition, c: Condition, run: seq<Statuses>, polls: set<nat>)
      returns (k: nat)
    requires Settle(q, c, run, polls) != Undecided
    ensures k < |run| && k in polls && Decide(q, c, run[k]) == Settle(q, c, run, polls)
  {
    var last := |run| - 1;
    if Settle(q, c, run[..last], polls) != Undecided {
      k := SettledSomewhere(q, c, run[..last], polls);
    } else {
      k := last;
    }
  }

  /** With a guessed cancel condition, whenever the scheduler chooses to reevaluate, it reaches
      the same verdict. */
  lemma VerdictDoesNotDependOnPolls(q: Condition, c: Condition, run: seq<Statuses>,
                                    polls: set<nat>, others: set<nat>)
    requires Guessable(q) && Empty(c) && IsHistory(run, Wait(q).ids)
    requires Settle(q, Guess(q, c), run, polls) != Undecided
    requires Settle(q, Guess(q, c), run, others) != Undecided
    ensures Settle(q, Guess(q, c), run, polls) == Settle(q, Guess(q, c), run, others)
  {
    var j := SettledSomewhere(q, Guess(q, c), run, polls);
    var k := SettledSomewhere(q, Guess(q, c), run, others);
    if j <= k {
      DecisionLasts(q, c, run, j, k);
    } else {
      DecisionLasts(q, c, run, k, j);
    }
  }

  lemma DecisionLasts(q: Condition, c: Condition, run: seq<Statuses>, j: nat, k: nat)
    requires Guessable(q) && Empty(c) && IsHistory(run, Wait(q).ids)
    requires j <= k < |run| && Decide(q, Guess(q, c), run[j]) != Undecided
    ensures Decide(q, Guess(q, c), run[k]) == Decide(q, Guess(q, c), run[j])
  {
    var op, ids := Wait(q).op, Wait(q).ids;
    GuessedPair(q, c, run[j]);
    GuessedPair(q, c, run[k]);
    HistoryAdvances(run, ids, j, k);
    if Meaning(op, Awaited(ids, run[j])) {
      OnceTrueStaysTrue(op, Awaited(ids, run[j]), Awaited(ids, run[k]));
    } else {
      OnceTrueStaysTrue(Conjugate(op), Awaited(ids, run[j]), Awaited(ids, run[k]));
    }
    NeverBoth(op, Awaited(ids, run[k]));
  }

  /** A reevaluation made once the awaited instances are all finished always reaches a verdict. */
  lemma FinishedHerdIsDecided(q: Condition, c: Condition, herd: Statuses)
    requires Guessable(q) && Empty(c)
    requires forall i <- Awaited(Wait(q).ids, herd) :: Finished(herd[i])
    ensures Decide(q, Guess(q, c), herd) != Undecided
  {
    GuessedPair(q, c, herd);
    ExactlyOneOnceFinished(Wait(q).op, Awaited(Wait(q).ids, herd));
  }

  /** When the queue condition is not a single wait, nothing is guessed: the empty condition is
      kept, and an empty disjunction, which a plan-task action passes, is always true. */
  lemma NothingGuessed(q: Condition, c: Condition, herd: Statuses)
    requires Empty(c) && q.Disjunction? && |q.terms| != 1
    ensures Holds(Guess(q, c), herd) <==> c.Disjunction?
    ensures Decide(q, Guess(q, c), herd) != Undecided <==> Holds(q, herd) || c.Disjunction?
  {
  }

  /** An operator that only holds of some instance. */
  predicate AsksForSome(op: Operator) {
    || op == AnyFinished || op == AnyStarted || op == IsNotEmpty
    || op == AnySuccess || op == AnyFailure || op == AnyCanceled
    || op == AnyNonSuccess || op == AnyNonFailure || op == AnyNonCanceled
    || op == AllFinishedAnySuccess || op == AllFinishedAnyFailure || op == AllFinishedAnyCanceled
  }

  /** Read off the condition: some wait can hold, that is one whose operator is known and not false,
      and that awaits somebody if the operator asks for some instance. */
  predicate CanEverHold(c: Condition) {
    match c
    case NullCondition => false
    case TaskWait(op, ids) => op != False && op != UnknownOperator && (AsksForSome(op) ==> ids != {})
    case Disjunction(terms) => |terms| == 0 || exists t | t in terms :: CanEverHold(t)
  }

  ghost predicate CanHold(c: Condition) {
    exists herd: Statuses :: Holds(c, herd)
  }

  /** A status that satisfies an operator when it is that of the only instance. */
  function Satisfying(op: Operator): Status {
    match op
    case AllFailure | NoSuccess | AnyFailure | AnyNonSuccess | AllFinishedAnyFailure => Failure
    case AllCanceled | AnyCanceled | AllFinishedAnyCanceled => Canceled
    case _ => Success
  }

  lemma WaitCanHold(op: Operator, ids: set<Id>) returns (herd: Statuses)
    requires CanEverHold(TaskWait(op, ids))
    ensures Meaning(op, Awaited(ids, herd))
  {
    if !AsksForSome(op) {
      herd := map[];
    } else {
      var i :| i in ids;
      herd := map[i := Satisfying(op)];
      assert Awaited(ids, herd) == herd && herd[i] == Satisfying(op);
    }
  }

  lemma WaitHolds(op: Operator, ids: set<Id>, herd: Statuses)
    requires Meaning(op, Awaited(ids, herd))
    ensures CanEverHold(TaskWait(op, ids))
  {
  }

  lemma {:induction false} CanHoldExactly(c: Condition)
    ensures CanHold(c) <==> CanEverHold(c)
    decreases c
  {
    match c {
      case NullCondition =>
      case TaskWait(op, ids) =>
        if CanEverHold(c) {
          var herd := WaitCanHold(op, ids);
          assert Holds(c, herd);
        }
        if CanHold(c) {
          var herd: Statuses :| Holds(c, herd);
          WaitHolds(op, ids, herd);
        }
      case Disjunction(terms) =>
        forall t <- terms ensures CanHold(t) <==> CanEverHold(t) {
          CanHoldExactly(t);
        }
        SomeTermCanHold(c);
    }
  }

  lemma SomeTermCanHold(c: Condition)
    requires c.Disjunction?
    ensures CanHold(c) <==> |c.terms| == 0 || exists t | t in c.terms :: CanHold(t)
  {
    if |c.terms| == 0 {
      assert Holds(c, map[]);
    } else if t :| t in c.terms && CanHold(t) {
      var herd: Statuses :| Holds(t, herd);
      assert Holds(c, herd);
    } else if CanHold(c) {
      var herd: Statuses :| Holds(c, herd);
      var t :| t in c.terms && Holds(t, herd);
      assert CanHold(t);
    }
  }

  ghost predicate Exclusive(q: Condition, c: Condition) {
    forall herd: Statuses :: !(Holds(q, herd) && Holds(c, herd))
  }

  /** Two queue conditions on an unfinished sheep and no cancel condition: canceled at once. */
  lemma TwoTermsCancelAtOnce()
    ensures
      var q := Disjunction([TaskWait(AllSuccess, {1}), TaskWait(AllFailure, {1})]);
      Decide(q, Guess(q, Disjunction([])), map[1 := Running]) == Cancel
  {
    var q := Disjunction([TaskWait(AllSuccess, {1}), TaskWait(AllFailure, {1})]);
    var herd: Statuses := map[1 := Running];
    assert forall ids | 1 in ids :: Awaited(ids, herd)[1] == Running;
    forall t | t in q.terms ensures !Holds(t, herd) {
      assert 1 in Awaited({1}, herd) && Awaited({1}, herd)[1].Running?;
    }
  }

  /** A wait, alone or as the only term of a disjunction. */
  predicate SingleWait(q: Condition) {
    q.TaskWait? || (q.Disjunction? && |q.terms| == 1 && q.terms[0].TaskWait?)
  }

  lemma SingleIsExclusive(q: Condition, c: Condition)
    requires Empty(c) && SingleWait(q)
    ensures Exclusive(q, Guess(q, c))
  {
    forall herd: Statuses ensures !(Holds(q, herd) && Holds(Guess(q, c), herd)) {
      var w := if q.Disjunction? then q.terms[0] else q;
      assert q.Disjunction? ==> q.terms == [w];
      NeverBoth(w.op, Awaited(w.ids, herd));
    }
  }

  /** Whatever its herd, a sheep without a cancel condition is never told both to be queued and to be
      canceled exactly when its queue condition is a single wait, or the empty cancel condition is
      the null one, or no wait of the queue condition can ever hold. */
  lemma ExclusiveExactly(q: Condition, c: Condition)
    requires Empty(c)
    ensures Exclusive(q, Guess(q, c)) <==> SingleWait(q) || c.NullCondition? || !CanEverHold(q)
  {
    CanHoldExactly(q);
    if SingleWait(q) {
      SingleIsExclusive(q, c);
    } else {
      assert Guess(q, c) == c;
      assert forall herd: Statuses :: Holds(c, herd) <==> c.Disjunction?;
      if c.Disjunction? && CanHold(q) {
        var herd: Statuses :| Holds(q, herd);
        assert Holds(c, herd);
      }
    }
  }
}
