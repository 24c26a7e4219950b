/** Live map, herd indexes and herder judgements, one elementary step at a time. */
module SchedulerHerds {
  import opened TaskStatus
  import opened Totals
  import opened SchedulerModel
  import opened SchedulerInvariants
  import C = Conditions

  // ---------------------------------------------------------------------------------------------
  // Members and pending ones, as the data of instances change
  // ---------------------------------------------------------------------------------------------

  /** One more instance, the statuses and herds of the others being unchanged. */
  lemma OneMore(store: Store, more: Store, id: Id, h: Id, limbo: set<Id>)
    requires id !in store && more.Keys == store.Keys + {id} && id !in limbo
    requires forall i <- store ::
               more[i].herd == store[i].herd && StatusOf(more[i]) == StatusOf(store[i])
    requires !Finished(StatusOf(more[id]))
    ensures var added := if h == more[id].herd && h != id then {id} else {};
            && Members(more, h) == Members(store, h) + added
            && Pending(more, h, limbo) == Pending(store, h, limbo) + added
  {
    hide StatusOf;
    assert Members(more, h) == Members(store, h) + if h == more[id].herd && h != id then {id} else {};
  }

  lemma PutSame(store: Store, i: Id, inst: Inst, h: Id, limbo: set<Id>)
    requires i in store && inst.herd == store[i].herd
    requires Finished(StatusOf(inst)) == Done(store, i)
    ensures Members(store[i := inst], h) == Members(store, h)
    ensures Pending(store[i := inst], h, limbo) == Pending(store, h, limbo)
  {
    hide StatusOf;
    assert Members(store[i := inst], h) == Members(store, h);
  }

  /** An instance that finishes is no longer pending, unless it is in limbo. */
  lemma PutFinished(store: Store, i: Id, inst: Inst, h: Id, limbo: set<Id>)
    requires i in store && inst.herd == store[i].herd
    requires !Done(store, i) && Finished(StatusOf(inst))
    ensures Members(store[i := inst], h) == Members(store, h)
    ensures Pending(store[i := inst], h, limbo + {i}) == Pending(store, h, limbo)
    ensures i !in limbo ==> Pending(store[i := inst], h, limbo) == Pending(store, h, limbo) - {i}
  {
    hide StatusOf;
    assert Members(store[i := inst], h) == Members(store, h);
  }

  lemma LeaveLimbo(store: Store, i: Id, h: Id, limbo: set<Id>)
    ensures i in store && Done(store, i) ==>
              Pending(store, h, limbo - {i}) == Pending(store, h, limbo) - {i}
    ensures i in store && store[i].herd == i ==>
              Pending(store, h, limbo - {i}) == Pending(store, h, limbo)
    ensures i in store && !Done(store, i) ==>
              Pending(store, h, limbo + {i}) == Pending(store, h, limbo)
  {
    hide StatusOf;
  }

  // ---------------------------------------------------------------------------------------------
  // A new instance
  // ---------------------------------------------------------------------------------------------

  ghost predicate Newborn(s: State, inst: Inst, herd: Id, herded: bool) {
    && StatusOf(inst) == Planned && Coherent(inst) && inst.herded == {}
    && inst.herd == (if herd == 0 then s.next else herd)
    && (herd == 0 || IsHerder(s.store, herd))
    && (herded <==> herd in s.live)
    && 0 !in s.live
  }

  lemma EnterEffect(s: State, inst: Inst, herd: Id, herded: bool)
    requires Shape(s) && Newborn(s, inst, herd, herded)
    ensures var t := Enter(s, inst, herd, herded);
            && t == s.(store := t.store, live := s.live + {s.next}, next := s.next + 1,
                       awaited := t.awaited, herds := t.herds)
            && t.store.Keys == s.store.Keys + {s.next} && t.store[s.next] == inst && s.next !in s.store
            && (forall i <- s.store ::
                  && StatusOf(t.store[i]) == StatusOf(s.store[i]) && t.store[i].herd == s.store[i].herd
                  && t.store[i] == if herded && i == herd
                                   then s.store[i].(herded := s.store[i].herded + {s.next})
                                   else s.store[i])
            && t.awaited == (if herded then s.awaited[herd := Get(s.awaited, herd, {}) + {s.next}] else s.awaited)
            && t.herds == (if herded then s.herds[herd := Get(s.herds, herd, {}) + {s.next}] else s.herds)
  {
  }

  lemma EnterShape(s: State, inst: Inst, herd: Id, herded: bool)
    requires Shape(s) && Newborn(s, inst, herd, herded)
    ensures Shape(Enter(s, inst, herd, herded))
  {
  }

  lemma EnterClean(s: State, inst: Inst, herd: Id, herded: bool, limbo: set<Id>)
    requires Shape(s) && Clean(s, limbo) && Newborn(s, inst, herd, herded)
    ensures Clean(Enter(s, inst, herd, herded), limbo)
  {
    EnterEffect(s, inst, herd, herded);
    EnterGrows(s, Enter(s, inst, herd, herded), inst, limbo);
    hide *;
  }

  lemma EnterGrows(s: State, t: State, inst: Inst, limbo: set<Id>)
    requires Clean(s, limbo) && t.live == s.live + {s.next} && t.store.Keys == s.store.Keys + {s.next}
    requires t.store[s.next] == inst && StatusOf(inst) == Planned && s.next !in s.store
    requires forall i <- s.store :: StatusOf(t.store[i]) == StatusOf(s.store[i]) && t.store[i].herd == s.store[i].herd
    ensures Clean(t, limbo)
  {
    hide StatusOf;
  }

  lemma FreshId(s: State, limbo: set<Id>)
    requires Shape(s) && Clean(s, limbo)
    ensures s.next !in s.store && s.next !in s.live && s.next !in limbo
    ensures Members(s.store, s.next) == {} && Pending(s.store, s.next, limbo) == {}
  {
    hide StatusOf;
  }

  lemma EnterHerdIndexed(s: State, inst: Inst, herd: Id, herded: bool, limbo: set<Id>, h: Id)
    requires Shape(s) && Clean(s, limbo) && Indexed(s, limbo) && Newborn(s, inst, herd, herded)
    requires h in s.live && IsHerder(s.store, h)
    ensures HerdIndexed(Enter(s, inst, herd, herded), limbo, h)
  {
    hide Enter, StatusOf, Shape, Clean, Coherent, Members, Pending;
    EnterEffect(s, inst, herd, herded);
    FreshId(s, limbo);
    OneMore(s.store, Enter(s, inst, herd, herded).store, s.next, h, limbo);
  }

  lemma EnterKeysIndexed(s: State, inst: Inst, herd: Id, herded: bool, limbo: set<Id>)
    requires Shape(s) && Clean(s, limbo) && Indexed(s, limbo) && Newborn(s, inst, herd, herded)
    ensures var t := Enter(s, inst, herd, herded);
            && (forall h <- t.awaited :: h in t.live && IsHerder(t.store, h))
            && (forall h <- t.herds :: h in t.live && IsHerder(t.store, h))
            && (s.next !in t.awaited && s.next !in t.herds)
  {
    hide Enter, StatusOf, Clean, Coherent, Members, Pending, HerdIndexed;
    EnterEffect(s, inst, herd, herded);
    FreshId(s, limbo);
  }

  lemma EnterIndexed(s: State, inst: Inst, herd: Id, herded: bool, limbo: set<Id>)
    requires Shape(s) && Clean(s, limbo) && Indexed(s, limbo) && Newborn(s, inst, herd, herded)
    ensures Indexed(Enter(s, inst, herd, herded), limbo)
  {
    hide Enter, StatusOf, Shape, Clean, Coherent, Members, Pending;
    EnterEffect(s, inst, herd, herded);
    EnterKeysIndexed(s, inst, herd, herded, limbo);
    FreshId(s, limbo);
    var t := Enter(s, inst, herd, herded);
    forall h <- t.live | IsHerder(t.store, h) ensures HerdIndexed(t, limbo, h) {
      hide Indexed;
      if h == s.next {
        OneMore(s.store, t.store, s.next, h, limbo);
      } else {
        assert h in s.live && IsHerder(s.store, h);
        hide HerdIndexed;
        EnterHerdIndexed(s, inst, herd, herded, limbo, h);
      }
    }
  }

  lemma EnterHerding(s: State, inst: Inst, herd: Id, herded: bool, limbo: set<Id>)
    requires Shape(s) && Herding(s, limbo) && Newborn(s, inst, herd, herded)
    ensures Herding(Enter(s, inst, herd, herded), limbo)
  {
  }

  lemma EnterJudged(s: State, inst: Inst, herd: Id, herded: bool, limbo: set<Id>)
    requires Shape(s) && Clean(s, limbo) && Judged(s) && Newborn(s, inst, herd, herded)
    ensures Judged(Enter(s, inst, herd, herded))
  {
    hide *;
    EnterLeavesDone(s, inst, herd, herded, limbo);
    EnterEffect(s, inst, herd, herded);
    JudgedStays(s, Enter(s, inst, herd, herded));
  }

  /** Finished herders are as they were, and the statuses of all others too. */
  lemma JudgedStays(s: State, t: State)
    requires Judged(s) && t.cfg == s.cfg
    requires forall h <- t.store | IsHerder(t.store, h) && Done(t.store, h) :: h in s.store && t.store[h] == s.store[h]
    requires forall i <- s.store ::
               i in t.store && t.store[i].herd == s.store[i].herd && StatusOf(t.store[i]) == StatusOf(s.store[i])
    ensures Judged(t)
  {
    hide StatusOf, JudgedOn;
    forall h <- t.store | IsHerder(t.store, h) && PolicyOf(t, t.store[h].task) != NoWait && Done(t.store, h)
      ensures JudgedOn(t, h)
    {
      assert JudgedOn(s, h);
      SheepAreKnown(s, h);
      JudgedFrame(s, t, h);
    }
  }

  lemma EnterLeavesDone(s: State, inst: Inst, herd: Id, herded: bool, limbo: set<Id>)
    requires Shape(s) && Clean(s, limbo) && Newborn(s, inst, herd, herded)
    ensures var t := Enter(s, inst, herd, herded);
            && t.cfg == s.cfg
            && forall h <- t.store | IsHerder(t.store, h) && Done(t.store, h) ::
                 h in s.store && t.store[h] == s.store[h]
  {
    EnterEffect(s, inst, herd, herded);
    assert !Finished(StatusOf(inst)) && (herded && herd in s.store ==> !Done(s.store, herd));
    hide Enter, StatusOf, Newborn, Shape, Clean;
  }

  lemma SheepAreKnown(s: State, h: Id)
    requires h in s.store && JudgedOn(s, h)
    ensures forall j <- s.store[h].herded :: j in s.store
  {
    hide StatusOf, Judge, Flock;
  }

  lemma EnterStaffed(s: State, inst: Inst, herd: Id, herded: bool)
    requires Shape(s) && Staffed(s) && Newborn(s, inst, herd, herded)
    ensures Staffed(Enter(s, inst, herd, herded))
  {
    EnterRunning(s, inst, herd, herded);
    hide Enter, StatusOf, Shape, Newborn;
  }

  lemma EnterRunning(s: State, inst: Inst, herd: Id, herded: bool)
    requires Shape(s) && Newborn(s, inst, herd, herded)
    ensures var t := Enter(s, inst, herd, herded);
            && t.busy == s.busy && t.idle == s.idle && t.made == s.made
            && (forall i ::
                  i in t.store && StatusOf(t.store[i]) == Running <==> i in s.store && StatusOf(s.store[i]) == Running)
  {
    EnterEffect(s, inst, herd, herded);
    hide Enter, StatusOf, Shape;
  }

  lemma EnterTally(s: State, inst: Inst, herd: Id, herded: bool, p: Status -> bool, f: Key -> int)
    requires Shape(s) && Newborn(s, inst, herd, herded) && !p(Planned)
    ensures Tally(Enter(s, inst, herd, herded).store, p, f) == Tally(s.store, p, f)
  {
    var t := Enter(s, inst, herd, herded);
    TallyPut(s.store, s.next, inst, p, f);
    if herded {
      TallyPut(s.store[s.next := inst], herd, t.store[herd], p, f);
    }
  }

  // ---------------------------------------------------------------------------------------------
  // An unfinished instance gets a timestamp and stays unfinished
  // ---------------------------------------------------------------------------------------------

  ghost predicate Rewritten(s: State, t: State, i: Id, inst: Inst) {
    && t.store == s.store[i := inst]
    && t.live == s.live && t.herds == s.herds && t.awaited == s.awaited
    && t.next == s.next && t.cfg == s.cfg
  }

  ghost predicate SameHerd(a: Inst, b: Inst) {
    && a.herd == b.herd && a.herded == b.herded && a.task == b.task && a.force == b.force
    && a.criterion == b.criterion && a.queuewhen == b.queuewhen && a.cancelwhen == b.cancelwhen
  }

  lemma RewriteShape(s: State, t: State, i: Id, inst: Inst)
    requires Shape(s) && Rewritten(s, t, i, inst) && i in s.store && SameHerd(inst, s.store[i])
    requires Coherent(inst)
    ensures Shape(t)
  {
    hide StatusOf, Coherent;
  }

  lemma RewriteClean(s: State, t: State, i: Id, inst: Inst, limbo: set<Id>)
    requires Clean(s, limbo) && Rewritten(s, t, i, inst) && i in s.store && SameHerd(inst, s.store[i])
    requires !Done(s.store, i) && !Finished(StatusOf(inst)) && i !in limbo
    ensures Clean(t, limbo)
  {
    hide StatusOf;
  }

  lemma RewriteIndexed(s: State, t: State, i: Id, inst: Inst, limbo: set<Id>)
    requires Indexed(s, limbo) && Rewritten(s, t, i, inst) && i in s.store && SameHerd(inst, s.store[i])
    requires !Done(s.store, i) && !Finished(StatusOf(inst))
    ensures Indexed(t, limbo)
  {
    hide StatusOf, Members, Pending;
    forall h <- t.live | IsHerder(t.store, h) ensures HerdIndexed(t, limbo, h) {
      assert HerdIndexed(s, limbo, h);
      PutSame(s.store, i, inst, h, limbo);
    }
  }

  /** A herder judged on its sheep has no unfinished one. */
  lemma RewriteJudged(s: State, t: State, i: Id, inst: Inst)
    requires Judged(s) && Rewritten(s, t, i, inst) && i in s.store && SameHerd(inst, s.store[i])
    requires !Done(s.store, i) && !Finished(StatusOf(inst))
    ensures Judged(t)
  {
    hide StatusOf, JudgedOn;
    forall h <- t.store | IsHerder(t.store, h) && PolicyOf(t, t.store[h].task) != NoWait && Done(t.store, h)
      ensures JudgedOn(t, h)
    {
      assert h != i && JudgedOn(s, h);
      OnlyFinishedSheep(s, h, i);
      JudgedFrame(s, t, h);
    }
  }

  lemma OnlyFinishedSheep(s: State, h: Id, i: Id)
    requires h in s.store && JudgedOn(s, h) && i in s.store && !Done(s.store, i)
    ensures i !in s.store[h].herded
    ensures forall j <- s.store[h].herded :: j in s.store
  {
  }

  /** What the status of an instance becomes must suit its herd. */
  lemma RewriteHerding(s: State, t: State, i: Id, inst: Inst, limbo: set<Id>)
    requires Herding(s, limbo) && Rewritten(s, t, i, inst) && i in s.store && SameHerd(inst, s.store[i])
    requires StatusOf(inst) == Waiting && inst.herd == i && i !in limbo ==> StatusOf(s.store[i]) == Waiting
    requires StatusOf(inst) == Planned || StatusOf(inst) == Queued ==> Unready(s.store, i)
    requires inst.herd != i && inst.herd in s.store && Unready(s.store, inst.herd) ==>
               StatusOf(inst) == Planned || StatusOf(inst) == Canceled
    ensures Herding(t, limbo)
  {
    hide StatusOf;
  }

  // ---------------------------------------------------------------------------------------------
  // A sheep finishes: it enters limbo
  // ---------------------------------------------------------------------------------------------

  ghost predicate SheepClosed(s: State, t: State, i: Id, inst: Inst) {
    && Rewritten(s, t, i, inst) && i in s.store && SameHerd(inst, s.store[i]) && inst.herd != i
    && !Done(s.store, i) && Finished(StatusOf(inst))
  }

  lemma SheepClosedClean(s: State, t: State, i: Id, inst: Inst, limbo: set<Id>)
    requires Clean(s, limbo) && SheepClosed(s, t, i, inst)
    ensures Clean(t, limbo + {i})
  {
    hide StatusOf;
  }

  lemma SheepClosedIndexed(s: State, t: State, i: Id, inst: Inst, limbo: set<Id>)
    requires Indexed(s, limbo) && SheepClosed(s, t, i, inst)
    ensures Indexed(t, limbo + {i})
  {
    hide StatusOf, Members, Pending;
    forall h <- t.live | IsHerder(t.store, h) ensures HerdIndexed(t, limbo + {i}, h) {
      assert HerdIndexed(s, limbo, h);
      PutFinished(s.store, i, inst, h, limbo);
    }
  }

  lemma SheepClosedJudged(s: State, t: State, i: Id, inst: Inst)
    requires Judged(s) && SheepClosed(s, t, i, inst)
    ensures Judged(t)
  {
    hide StatusOf, JudgedOn;
    forall h <- t.store | IsHerder(t.store, h) && PolicyOf(t, t.store[h].task) != NoWait && Done(t.store, h)
      ensures JudgedOn(t, h)
    {
      assert h != i && JudgedOn(s, h);
      OnlyFinishedSheep(s, h, i);
      JudgedFrame(s, t, h);
    }
  }

  lemma SheepClosedHerding(s: State, t: State, i: Id, inst: Inst, limbo: set<Id>)
    requires Herding(s, limbo) && SheepClosed(s, t, i, inst)
    requires inst.herd in s.store && Unready(s.store, inst.herd) ==> StatusOf(inst) == Canceled
    ensures Herding(t, limbo + {i})
  {
    hide StatusOf;
  }

  // ---------------------------------------------------------------------------------------------
  // A herder finishes
  // ---------------------------------------------------------------------------------------------

  /** The indexes after a herder was closed and forgotten. */
  ghost predicate HerderGone(s: State, t: State, h: Id, inst: Inst, gone: set<Id>) {
    && IsHerder(s.store, h) && SameHerd(inst, s.store[h]) && Finished(StatusOf(inst))
    && t.store == s.store[h := inst]
    && t.live == s.live - gone - {h}
    && t.herds == s.herds - {h} && t.awaited == s.awaited - {h}
    && t.next == s.next && t.cfg == s.cfg
    && gone == (set j | j in Get(s.herds, h, {}) && j in s.live && j in s.store && Done(t.store, j))
  }

  /** The finished ones among the members of a live herd. */
  lemma GoneAreMembers(s: State, t: State, h: Id, inst: Inst, gone: set<Id>, limbo: set<Id>)
    requires Shape(s) && Indexed(s, limbo) && HerderGone(s, t, h, inst, gone)
    ensures h !in s.live ==> gone == {}
    ensures forall j <- gone :: j in Members(s.store, h) && Done(s.store, j)
    ensures h in s.live ==> forall j <- Members(s.store, h) :: j in s.store && (Done(s.store, j) ==> j in gone)
  {
    hide StatusOf, Pending, Coherent;
    if h in s.live {
      assert HerdIndexed(s, limbo, h);
    } else {
      assert h !in s.herds;
    }
  }

  lemma HerderGoneShape(s: State, t: State, h: Id, inst: Inst, gone: set<Id>)
    requires Shape(s) && HerderGone(s, t, h, inst, gone) && Coherent(inst)
    ensures Shape(t)
  {
    hide StatusOf, Coherent;
  }

  lemma HerderGoneClean(s: State, t: State, h: Id, inst: Inst, gone: set<Id>, limbo: set<Id>)
    requires Shape(s) && Clean(s, limbo) && Indexed(s, limbo) && HerderGone(s, t, h, inst, gone)
    ensures Clean(t, limbo)
  {
    hide StatusOf, Pending, Coherent, HerdIndexed;
    GoneAreMembers(s, t, h, inst, gone, limbo);
    hide Indexed;
  }

  lemma HerderGoneIndexed(s: State, t: State, h: Id, inst: Inst, gone: set<Id>, limbo: set<Id>)
    requires Shape(s) && Indexed(s, limbo) && HerderGone(s, t, h, inst, gone)
    ensures Indexed(t, limbo)
  {
    hide StatusOf, Coherent, Shape, Members, Pending, HerdIndexed;
    GoneAreMembers(s, t, h, inst, gone, limbo);
    NoHerderGone(s, gone, h);
    forall k <- t.live | IsHerder(t.store, k) ensures HerdIndexed(t, limbo, k) {
      assert k != h && IsHerder(s.store, k);
      HerderGoneOther(s, t, h, inst, gone, limbo, k);
    }
  }

  lemma HerderGoneOther(s: State, t: State, h: Id, inst: Inst, gone: set<Id>, limbo: set<Id>, k: Id)
    requires Shape(s) && Indexed(s, limbo) && HerderGone(s, t, h, inst, gone)
    requires k in s.live && IsHerder(s.store, k) && k != h
    ensures HerdIndexed(t, limbo, k)
  {
    hide StatusOf, Coherent, Shape, Pending;
    GoneAreMembers(s, t, h, inst, gone, limbo);
    OthersUnchanged(s.store, h, inst, k, limbo);
    assert HerdIndexed(s, limbo, k);
    hide Indexed, HerderGone;
    assert Members(s.store, k) !! gone;
  }

  lemma NoHerderGone(s: State, gone: set<Id>, h: Id)
    requires forall j <- gone :: j in Members(s.store, h)
    ensures forall k <- gone :: !IsHerder(s.store, k)
  {
  }

  lemma OthersUnchanged(store: Store, h: Id, inst: Inst, k: Id, limbo: set<Id>)
    requires IsHerder(store, h) && inst.herd == h && k != h
    ensures Members(store[h := inst], k) == Members(store, k)
    ensures Pending(store[h := inst], k, limbo) == Pending(store, k, limbo)
    ensures h !in Members(store, k)
  {
    hide StatusOf;
  }

  lemma HerderGoneHerding(s: State, t: State, h: Id, inst: Inst, gone: set<Id>, limbo: set<Id>)
    requires Herding(s, limbo + {h}) && HerderGone(s, t, h, inst, gone)
    ensures Herding(t, limbo)
    ensures Herding(t, limbo - {h})
  {
    hide StatusOf;
  }

  /** The others keep their judgement; the herder has its own. */
  lemma HerderGoneJudged(s: State, t: State, h: Id, inst: Inst, gone: set<Id>)
    requires Judged(s) && HerderGone(s, t, h, inst, gone)
    requires PolicyOf(t, inst.task) != NoWait ==> JudgedOn(t, h)
    requires PolicyOf(t, inst.task) == NoWait ==> inst.success == inst.reported
    ensures Judged(t)
  {
    hide StatusOf, JudgedOn;
    forall k <- t.store | IsHerder(t.store, k) && PolicyOf(t, t.store[k].task) != NoWait && Done(t.store, k)
      ensures JudgedOn(t, k)
    {
      if k != h {
        NotASheep(s, k, h);
        JudgedFrame(s, t, k);
      }
    }
  }

  lemma NotASheep(s: State, k: Id, h: Id)
    requires k in s.store && JudgedOn(s, k) && IsHerder(s.store, h) && k != h
    ensures forall j <- s.store[k].herded :: j in s.store && j != h
  {
  }

  lemma ClosedEffect(s: State, i: Id, asFailure: bool)
    requires i in s.store && Coherent(s.store[i])
    ensures var inst := Closed(s, i, asFailure);
            && SameHerd(inst, s.store[i]) && Coherent(inst)
            && KeyOf(inst) == KeyOf(s.store[i]) && inst.reported == s.store[i].reported
            && Finished(StatusOf(inst))
            && (if s.store[i].started
                then StatusOf(inst) == if inst.success then Success else Failure
                else StatusOf(inst) == (if asFailure then Failure else Canceled) && !inst.success)
  {
    hide Judge, Herded, PolicyOf;
  }

  lemma GiveBackEffect(s: State, i: Id)
    ensures GiveBack(s, i) == s.(count := GiveBack(s, i).count, used := GiveBack(s, i).used,
                                 again := GiveBack(s, i).again)
  {
    hide Credited, ResourcesOf, Get;
  }

  /** Closing rewrites one instance and leaves the indexes alone. */
  lemma CloseEffect(s: State, i: Id, asFailure: bool)
    ensures Rewritten(s, Close(s, i, asFailure), i, Closed(s, i, asFailure))
  {
    hide Closed, GiveBack;
    GiveBackEffect(s, i);
  }

  lemma ForgetHerder(c: State, h: Id) returns (gone: set<Id>)
    requires IsHerder(c.store, h)
    ensures gone == set j | j in Get(c.herds, h, {}) && j in c.live && j in c.store && Done(c.store, j)
    ensures Forget(c, h) == c.(live := c.live - gone - {h}, awaited := c.awaited - {h}, herds := c.herds - {h})
  {
    hide StatusOf;
    gone := set j | j in Get(c.herds, h, {}) && j in c.live && j in c.store && Done(c.store, j);
    assert gone == set j | j in Sheep(c, h) && Finished(StatusAt(c, j));
  }

  lemma FinishHerderEffect(s: State, h: Id, asFailure: bool) returns (gone: set<Id>)
    requires IsHerder(s.store, h) && Coherent(s.store[h])
    ensures HerderGone(s, FinishHerder(s, h, asFailure), h, Closed(s, h, asFailure), gone)
  {
    ClosedEffect(s, h, asFailure);
    CloseEffect(s, h, asFailure);
    hide Closed, Close, StatusOf;
    gone := ForgetHerder(Close(s, h, asFailure), h);
  }

  /** The sheep a live herder is judged on are all those ever planned into its herd. */
  lemma HerdedIsFlock(s: State, h: Id, inst: Inst, limbo: set<Id>)
    requires Indexed(s, limbo) && h in s.live && IsHerder(s.store, h) && inst.herded == s.store[h].herded
    ensures Herded(s, h) == Flock(s.store[h := inst], h)
  {
    hide StatusOf, Pending;
    assert HerdIndexed(s, limbo, h);
  }

  lemma NobodyPending(store: Store, h: Id, limbo: set<Id>)
    requires Pending(store, h, limbo) == {}
    ensures forall i <- Members(store, h) :: i in store && Done(store, i)
  {
    forall i <- Members(store, h) | i in store ensures Done(store, i) {
      assert i in Pending(store, h, limbo) || Done(store, i);
    }
  }

  /** A herder that never ran and whose sheep were all canceled fails under every policy. */
  lemma JudgeCanceled(policy: HerdingPolicy, sheep: map<Id, Status>)
    requires forall i <- sheep :: sheep[i] == Canceled
    ensures !Judge(policy, false, sheep)
  {
  }

  /** The sheep of a live herder that awaits nobody are all finished, and canceled when the
      herder never started. */
  lemma NobodyAwaited(s: State, h: Id, limbo: set<Id>)
    requires Shape(s) && Indexed(s, limbo) && Herding(s, limbo + {h})
    requires IsHerder(s.store, h) && h in s.live && Get(s.awaited, h, {}) == {}
    ensures forall i <- s.store[h].herded ::
              && i in s.store && i != h && s.store[i].herd == h && Done(s.store, i)
              && (Unready(s.store, h) ==> StatusOf(s.store[i]) == Canceled)
  {
    hide StatusOf;
    assert HerdIndexed(s, limbo, h);
    NobodyPending(s.store, h, limbo);
    if Unready(s.store, h) {
      UnreadyHerd(s, h, limbo + {h});
    }
  }

  lemma UnreadyHerd(s: State, h: Id, limbo: set<Id>)
    requires Shape(s) && Herding(s, limbo) && IsHerder(s.store, h) && Unready(s.store, h)
    ensures forall i <- Members(s.store, h) ::
              i in s.store && (Done(s.store, i) ==> StatusOf(s.store[i]) == Canceled)
  {
    forall i <- Members(s.store, h)
      ensures i in s.store && (Done(s.store, i) ==> StatusOf(s.store[i]) == Canceled)
    {
      assert s.store[i].herd == h;
    }
  }

  /** Finished sheep only matter by their statuses. */
  ghost predicate AllDone(store: Store, h: Id, canceled: bool)
    requires h in store
  {
    forall i <- store[h].herded ::
      && i in store && i != h && store[i].herd == h && Done(store, i)
      && (canceled ==> StatusOf(store[i]) == Canceled)
  }

  lemma AllDoneStays(store: Store, h: Id, inst: Inst, canceled: bool)
    requires h in store && AllDone(store, h, canceled) && inst.herded == store[h].herded
    ensures AllDone(store[h := inst], h, canceled)
    ensures Flock(store[h := inst], h) == Flock(store, h)
  {
    hide StatusOf;
  }

  lemma JudgedAfterRun(t: State, h: Id)
    requires h in t.store && AllDone(t.store, h, false) && StatusOf(t.store[h]) != Canceled
    requires t.store[h].success
          == Judge(PolicyOf(t, t.store[h].task), t.store[h].reported, Flock(t.store, h))
    ensures JudgedOn(t, h)
  {
    hide Judge, Flock, PolicyOf, StatusOf;
  }

  lemma JudgedWithoutRun(t: State, h: Id)
    requires h in t.store && AllDone(t.store, h, true)
    requires !t.store[h].success && !t.store[h].reported
    ensures JudgedOn(t, h)
  {
    assert forall i <- Flock(t.store, h) :: Flock(t.store, h)[i] == Canceled;
    JudgeCanceled(PolicyOf(t, t.store[h].task), Flock(t.store, h));
    hide Judge, Flock, PolicyOf, StatusOf;
  }

  /** The judgement of the herder of a live herd that awaits nobody. */
  lemma LiveHerderJudged(s: State, t: State, h: Id, asFailure: bool, limbo: set<Id>)
    requires Shape(s) && Clean(s, limbo) && Indexed(s, limbo) && Herding(s, limbo + {h})
    requires IsHerder(s.store, h) && h in s.live && Get(s.awaited, h, {}) == {}
    requires t.store == s.store[h := Closed(s, h, asFailure)] && t.cfg == s.cfg
    ensures JudgedOn(t, h)
  {
    var inst := Closed(s, h, asFailure);
    NotFinished(s, h, limbo);
    NobodyAwaited(s, h, limbo);
    assert AllDone(s.store, h, Unready(s.store, h));
    ClosedEffect(s, h, asFailure);
    HerdedIsFlock(s, h, inst, limbo);
    hide *;
    AllDoneStays(s.store, h, inst, !s.store[h].started);
    if s.store[h].started {
      CloseJudges(s, h, asFailure);
      SamePolicy(s, t, s.store[h].task);
      JudgedAfterRun(t, h);
    } else {
      JudgedWithoutRun(t, h);
    }
  }

  lemma SamePolicy(s: State, t: State, task: TaskId)
    requires s.cfg == t.cfg
    ensures PolicyOf(s, task) == PolicyOf(t, task)
  {
  }

  lemma NotFinished(s: State, h: Id, limbo: set<Id>)
    requires Shape(s) && Clean(s, limbo) && IsHerder(s.store, h) && h in s.live
    ensures !Done(s.store, h) && Coherent(s.store[h]) && s.store[h].success == s.store[h].reported
    ensures Unready(s.store, h) <==> !s.store[h].started
    ensures !s.store[h].started ==> !s.store[h].reported
  {
  }

  lemma CloseJudges(s: State, h: Id, asFailure: bool)
    requires h in s.store && s.store[h].started
    ensures Closed(s, h, asFailure).success
         == Judge(PolicyOf(s, s.store[h].task), s.store[h].success, Herded(s, h))
  {
    hide Judge, Herded, PolicyOf;
  }

  /** A herder that was finished before is closed again: its judgement stands. */
  lemma DeadHerderJudged(s: State, t: State, h: Id, asFailure: bool, limbo: set<Id>)
    requires Shape(s) && Indexed(s, limbo) && IsHerder(s.store, h) && JudgedOn(s, h)
    requires h !in s.live && Done(s.store, h)
    requires t.store == s.store[h := Closed(s, h, asFailure)] && t.cfg == s.cfg
    ensures JudgedOn(t, h)
  {
    var inst := Closed(s, h, asFailure);
    assert Coherent(s.store[h]) && Herded(s, h) == map[];
    assert AllDone(s.store, h, !s.store[h].started);
    assert s.store[h].started ==>
        s.store[h].success == Judge(PolicyOf(s, s.store[h].task), s.store[h].reported, Flock(s.store, h));
    ClosedEffect(s, h, asFailure);
    hide *;
    AllDoneStays(s.store, h, inst, !s.store[h].started);
    SamePolicy(s, t, s.store[h].task);
    if s.store[h].started {
      CloseJudges(s, h, asFailure);
      JudgeNoSheep(PolicyOf(s, s.store[h].task), s.store[h].success);
      JudgedAfterRun(t, h);
    } else {
      JudgedWithoutRun(t, h);
    }
  }

  lemma JudgeNoSheep(policy: HerdingPolicy, own: bool)
    ensures Judge(policy, own, map[]) == own
  {
  }

  // ---------------------------------------------------------------------------------------------
  // Together
  // ---------------------------------------------------------------------------------------------

  /** In a steady run, one that never changes the configuration for the worse, herders are
      judged as well. */
  ghost predicate Herds(s: State, limbo: set<Id>, steady: bool) {
    Shape(s) && Clean(s, limbo) && Indexed(s, limbo) && Herding(s, limbo) && (steady ==> Judged(s))
  }

  lemma EnterKeeps(s: State, inst: Inst, herd: Id, herded: bool, limbo: set<Id>, steady: bool)
    requires Herds(s, limbo, steady) && Newborn(s, inst, herd, herded)
    ensures Herds(Enter(s, inst, herd, herded), limbo, steady)
  {
    EnterShape(s, inst, herd, herded);
    EnterClean(s, inst, herd, herded, limbo);
    EnterIndexed(s, inst, herd, herded, limbo);
    EnterHerding(s, inst, herd, herded, limbo);
    if steady {
      EnterJudged(s, inst, herd, herded, limbo);
    }
    hide Enter, Newborn, Shape, Clean, Indexed, Herding, Judged;
  }

  lemma NewInstIsNewborn(s: State, req: Request, herd: Id, parent: Id)
    requires Shape(s) && (herd == 0 || IsHerder(s.store, herd))
    ensures var herded := herd in s.live && herd in s.store;
            Newborn(s, NewInst(s.next, req, herd, herded, parent), herd, herded)
  {
    hide Conditions;
    assert 0 !in s.store;
  }

  lemma InsertKeeps(s: State, req: Request, herd: Id, parent: Id, limbo: set<Id>, steady: bool)
    requires Herds(s, limbo, steady) && (herd == 0 || IsHerder(s.store, herd))
    ensures Herds(Insert(s, req, herd, parent), limbo, steady)
  {
    NewInstIsNewborn(s, req, herd, parent);
    hide Newborn, Enter, NewInst, Shape, Clean, Indexed, Herding, Judged;
    var herded := herd in s.live && herd in s.store;
    EnterKeeps(s, NewInst(s.next, req, herd, herded, parent), herd, herded, limbo, steady);
  }

  /** An unfinished instance that stays unfinished. */
  lemma RewriteKeeps(s: State, t: State, i: Id, inst: Inst, limbo: set<Id>, steady: bool)
    requires Herds(s, limbo, steady) && Rewritten(s, t, i, inst) && i in s.store && SameHerd(inst, s.store[i])
    requires Coherent(inst) && !Done(s.store, i) && !Finished(StatusOf(inst)) && i !in limbo
    requires StatusOf(inst) == Waiting && inst.herd == i ==> StatusOf(s.store[i]) == Waiting
    requires StatusOf(inst) == Planned || StatusOf(inst) == Queued ==> Unready(s.store, i)
    requires inst.herd != i && inst.herd in s.store && Unready(s.store, inst.herd) ==>
               StatusOf(inst) == Planned || StatusOf(inst) == Canceled
    ensures Herds(t, limbo, steady)
  {
    hide Rewritten, SameHerd, Coherent, StatusOf, Shape, Clean, Indexed, Herding, Judged;
    RewriteShape(s, t, i, inst);
    RewriteClean(s, t, i, inst, limbo);
    RewriteIndexed(s, t, i, inst, limbo);
    RewriteHerding(s, t, i, inst, limbo);
    if steady {
      RewriteJudged(s, t, i, inst);
    }
  }

  lemma FinishHerderKeeps(s: State, h: Id, asFailure: bool, limbo: set<Id>, steady: bool)
    requires Shape(s) && Clean(s, limbo) && Indexed(s, limbo) && Herding(s, limbo + {h}) && (steady ==> Judged(s))
    requires IsHerder(s.store, h)
    requires h !in s.live || Get(s.awaited, h, {}) == {} || PolicyOf(s, s.store[h].task) == NoWait
    ensures Herds(FinishHerder(s, h, asFailure), limbo, steady)
    ensures Herds(FinishHerder(s, h, asFailure), limbo - {h}, steady)
  {
    var t := FinishHerder(s, h, asFailure);
    var inst := Closed(s, h, asFailure);
    assert Coherent(s.store[h]);
    hide FinishHerder, Closed, Coherent, StatusOf, HerdIndexed;
    ClosedEffect(s, h, asFailure);
    var gone := FinishHerderEffect(s, h, asFailure);
    HerderGoneShape(s, t, h, inst, gone);
    HerderGoneClean(s, t, h, inst, gone, limbo);
    HerderGoneIndexed(s, t, h, inst, gone, limbo);
    HerderGoneHerding(s, t, h, inst, gone, limbo);
    if steady {
      if PolicyOf(t, inst.task) != NoWait {
        FinishedHerderJudged(s, t, h, asFailure, limbo);
      } else {
        OwnResult(s, t, h, asFailure);
      }
      HerderGoneJudged(s, t, h, inst, gone);
    }
    HerderLeavesLimbo(t, h, limbo);
  }

  /** A herder that does not wait keeps the result its executor gave. */
  lemma OwnResult(s: State, t: State, h: Id, asFailure: bool)
    requires IsHerder(s.store, h) && Coherent(s.store[h]) && Judged(s) && t.cfg == s.cfg
    requires PolicyOf(t, Closed(s, h, asFailure).task) == NoWait
    ensures Closed(s, h, asFailure).success == Closed(s, h, asFailure).reported
  {
    ClosedEffect(s, h, asFailure);
    SamePolicy(s, t, s.store[h].task);
    if s.store[h].started {
      CloseJudges(s, h, asFailure);
      JudgeOwn(s.store[h].success, Herded(s, h));
      hide JudgedOn, Herded, Judge, Closed, PolicyOf;
    }
    hide JudgedOn, Herded, Judge, Closed, PolicyOf;
  }

  lemma JudgeOwn(own: bool, sheep: map<Id, Status>)
    ensures Judge(NoWait, own, sheep) == own
  {
  }

  lemma FinishedHerderJudged(s: State, t: State, h: Id, asFailure: bool, limbo: set<Id>)
    requires Shape(s) && Clean(s, limbo) && Indexed(s, limbo) && Herding(s, limbo + {h}) && Judged(s)
    requires IsHerder(s.store, h) && PolicyOf(s, s.store[h].task) != NoWait
    requires h !in s.live || Get(s.awaited, h, {}) == {}
    requires t.store == s.store[h := Closed(s, h, asFailure)] && t.cfg == s.cfg
    ensures JudgedOn(t, h)
  {
    hide Closed, StatusOf, JudgedOn;
    if h in s.live {
      LiveHerderJudged(s, t, h, asFailure, limbo);
    } else {
      DeadHerderJudged(s, t, h, asFailure, limbo);
    }
  }

  /** A herder, dead or with something to wait for, needs no limbo. */
  lemma HerderLeavesLimbo(s: State, h: Id, limbo: set<Id>)
    requires IsHerder(s.store, h) && Clean(s, limbo) && Indexed(s, limbo)
    ensures Clean(s, limbo - {h}) && Indexed(s, limbo - {h})
  {
    hide StatusOf;
    assert Clean(s, limbo - {h});
    hide Clean, Members, Pending;
    forall k <- s.live | IsHerder(s.store, k) ensures HerdIndexed(s, limbo - {h}, k) {
      assert HerdIndexed(s, limbo, k);
      LeaveLimbo(s.store, h, k, limbo);
    }
  }

  // ---------------------------------------------------------------------------------------------
  // A finished sheep leaves limbo
  // ---------------------------------------------------------------------------------------------

  /** Closing an unfinished sheep puts it in limbo. */
  lemma CloseSheepKeeps(s: State, i: Id, asFailure: bool, limbo: set<Id>, steady: bool)
    requires Herds(s, limbo, steady) && i in s.store && s.store[i].herd != i && !Done(s.store, i)
    requires Unready(s.store, s.store[i].herd) ==> !asFailure && !s.store[i].started
    ensures Herds(Close(s, i, asFailure), limbo + {i}, steady)
    ensures i in Close(s, i, asFailure).store && Done(Close(s, i, asFailure).store, i)
  {
    var t := Close(s, i, asFailure);
    var inst := Closed(s, i, asFailure);
    CloseEffect(s, i, asFailure);
    ClosedEffect(s, i, asFailure);
    assert IsHerder(s.store, s.store[i].herd);
    hide Close, Closed, StatusOf, Coherent, Shape, Clean, Indexed, Herding, Judged;
    RewriteShape(s, t, i, inst);
    SheepClosedClean(s, t, i, inst, limbo);
    SheepClosedIndexed(s, t, i, inst, limbo);
    SheepClosedHerding(s, t, i, inst, limbo);
    if steady {
      SheepClosedJudged(s, t, i, inst);
    }
  }

  ghost predicate InLimbo(s: State, i: Id, limbo: set<Id>) {
    i in limbo && i in s.store && s.store[i].herd != i && Done(s.store, i)
  }

  /** The herder is no longer there: the finished sheep leaves the live map. */
  lemma ForgetOrphan(s: State, i: Id, limbo: set<Id>, steady: bool)
    requires Herds(s, limbo, steady) && InLimbo(s, i, limbo) && s.store[i].herd !in s.live
    ensures Herds(s.(live := s.live - {i}), limbo - {i}, steady)
  {
    var t := s.(live := s.live - {i});
    OrphanClean(s, i, limbo);
    OrphanHerding(s, i, limbo);
    OrphanAllIndexed(s, i, limbo);
    if steady {
      SameStoreJudged(s, t);
    }
    hide StatusOf, Coherent, Clean, Herding, Indexed, Judged;
  }

  lemma OrphanAllIndexed(s: State, i: Id, limbo: set<Id>)
    requires Indexed(s, limbo) && InLimbo(s, i, limbo) && s.store[i].herd !in s.live
    ensures Indexed(s.(live := s.live - {i}), limbo - {i})
  {
    hide StatusOf, HerdIndexed;
    var t := s.(live := s.live - {i});
    forall h <- t.live | IsHerder(t.store, h) ensures HerdIndexed(t, limbo - {i}, h) {
      OrphanIndexed(s, i, limbo, h);
    }
  }

  lemma SameStoreJudged(s: State, t: State)
    requires s.store == t.store && s.cfg == t.cfg && Judged(s)
    ensures Judged(t)
  {
    hide Judge, Flock, StatusOf;
    forall h <- t.store ensures PolicyOf(t, t.store[h].task) == PolicyOf(s, s.store[h].task) {
      SamePolicy(s, t, s.store[h].task);
    }
  }

  lemma OrphanClean(s: State, i: Id, limbo: set<Id>)
    requires Shape(s) && Clean(s, limbo) && InLimbo(s, i, limbo) && s.store[i].herd !in s.live
    ensures Clean(s.(live := s.live - {i}), limbo - {i})
  {
    hide StatusOf;
  }

  lemma OrphanHerding(s: State, i: Id, limbo: set<Id>)
    requires Herding(s, limbo) && InLimbo(s, i, limbo)
    ensures Herding(s.(live := s.live - {i}), limbo - {i})
  {
    hide StatusOf;
  }

  lemma OrphanIndexed(s: State, i: Id, limbo: set<Id>, h: Id)
    requires InLimbo(s, i, limbo) && s.store[i].herd !in s.live
    requires h in s.live && IsHerder(s.store, h) && HerdIndexed(s, limbo, h)
    ensures HerdIndexed(s.(live := s.live - {i}), limbo - {i}, h)
  {
    assert i !in Members(s.store, h);
    hide Members, StatusOf;
    LeaveLimbo(s.store, i, h, limbo);
    hide Pending;
    assert Pending(s.store, h, limbo) <= Members(s.store, h) by { PendingAreMembers(s.store, h, limbo); }
  }

  lemma PendingAreMembers(store: Store, h: Id, limbo: set<Id>)
    ensures Pending(store, h, limbo) <= Members(store, h)
  {
  }

  /** The herder no longer awaits the finished sheep; it may now have nothing to wait for. */
  function Unawait(s: State, i: Id): State {
    var h := Data(s, i).herd;
    s.(awaited := s.awaited[h := Get(s.awaited, h, {}) - {i}])
  }

  lemma UnawaitKeeps(s: State, i: Id, limbo: set<Id>, steady: bool)
    requires Herds(s, limbo, steady) && InLimbo(s, i, limbo) && s.store[i].herd in s.live
    ensures var t := Unawait(s, i);
            var h := s.store[i].herd;
            && Shape(t) && Clean(t, limbo - {i}) && Indexed(t, limbo - {i}) && (steady ==> Judged(t))
            && Herding(t, limbo - {i} + {h})
            && (Get(t.awaited, h, {}) != {} || StatusOf(s.store[h]) != Waiting ==> Herding(t, limbo - {i}))
  {
    UnawaitClean(s, i, limbo);
    UnawaitHerding(s, i, limbo);
    UnawaitAllIndexed(s, i, limbo);
    if steady {
      SameStoreJudged(s, Unawait(s, i));
    }
    assert Shape(Unawait(s, i));
    hide StatusOf, Coherent, Clean, Herding, Shape, Judged, Indexed;
  }

  lemma UnawaitAllIndexed(s: State, i: Id, limbo: set<Id>)
    requires Shape(s) && Indexed(s, limbo) && InLimbo(s, i, limbo) && s.store[i].herd in s.live
    ensures Indexed(Unawait(s, i), limbo - {i})
  {
    hide StatusOf, HerdIndexed, Coherent;
    var t := Unawait(s, i);
    forall k <- t.live | IsHerder(t.store, k) ensures HerdIndexed(t, limbo - {i}, k) {
      UnawaitIndexed(s, i, limbo, k);
    }
  }

  lemma UnawaitClean(s: State, i: Id, limbo: set<Id>)
    requires Clean(s, limbo) && InLimbo(s, i, limbo) && s.store[i].herd in s.live
    ensures Clean(Unawait(s, i), limbo - {i})
  {
    hide StatusOf;
  }

  lemma UnawaitHerding(s: State, i: Id, limbo: set<Id>)
    requires Herding(s, limbo) && InLimbo(s, i, limbo) && s.store[i].herd in s.store
    ensures var t := Unawait(s, i);
            var h := s.store[i].herd;
            && Herding(t, limbo - {i} + {h})
            && (Get(t.awaited, h, {}) != {} || StatusOf(s.store[h]) != Waiting ==> Herding(t, limbo - {i}))
  {
    hide StatusOf;
  }

  lemma UnawaitIndexed(s: State, i: Id, limbo: set<Id>, k: Id)
    requires Indexed(s, limbo) && InLimbo(s, i, limbo) && k in s.live && IsHerder(s.store, k)
    ensures HerdIndexed(Unawait(s, i), limbo - {i}, k)
  {
    assert HerdIndexed(s, limbo, k);
    hide Indexed, StatusOf;
    var h := s.store[i].herd;
    if k != h {
      assert i !in Members(s.store, k);
      assert Get(Unawait(s, i).awaited, k, {}) == Get(s.awaited, k, {});
    }
    hide Members;
    LeaveLimbo(s.store, i, k, limbo);
    PendingAreMembers(s.store, k, limbo);
    hide Pending;
  }

  /** Nothing the herds depend on has changed. */
  ghost predicate SameHerds(s: State, t: State) {
    && t.store == s.store && t.live == s.live && t.herds == s.herds && t.awaited == s.awaited
    && t.next == s.next && t.cfg == s.cfg
  }

  lemma SameHerdsKeeps(s: State, t: State, limbo: set<Id>, steady: bool)
    requires Herds(s, limbo, steady) && SameHerds(s, t)
    ensures Herds(t, limbo, steady)
  {
    if steady {
      SameStoreJudged(s, t);
    }
    SameHerdsIndexed(s, t, limbo);
    SameHerdsClean(s, t, limbo);
    hide StatusOf, Coherent, Judged, Indexed, Clean, Herding, Shape;
  }

  lemma SameHerdsClean(s: State, t: State, limbo: set<Id>)
    requires Shape(s) && Clean(s, limbo) && Herding(s, limbo) && SameHerds(s, t)
    ensures Shape(t) && Clean(t, limbo) && Herding(t, limbo)
  {
    hide StatusOf, Coherent, Pending, Members;
  }

  lemma SameHerdsIndexed(s: State, t: State, limbo: set<Id>)
    requires Indexed(s, limbo) && SameHerds(s, t)
    ensures Indexed(t, limbo)
  {
    hide Members, Pending;
  }

  /** A finished sheep in limbo is forgotten, then released. */
  lemma ReleaseKeeps(s: State, i: Id, limbo: set<Id>, steady: bool)
    requires Herds(s, limbo, steady) && InLimbo(s, i, limbo)
    ensures Herds(Release(Forget(s, i), i), limbo - {i}, steady)
  {
    var h := s.store[i].herd;
    if h in s.live {
      var t := Unawait(s, i);
      StillAwaited(s, i, limbo, steady);
      ReleaseCases(s, i);
      UnawaitKeeps(s, i, limbo, steady);
      hide Herding, Indexed, Clean, Shape, Judged, FinishHerder, Release, Forget, StatusOf;
      if Get(t.awaited, h, {}) == {} && StatusOf(s.store[h]) == Waiting {
        FinishHerderKeeps(t, h, false, limbo - {i}, steady);
      } else {
        SameHerdsKeeps(t, Soil(t, h), limbo - {i}, steady);
      }
    } else {
      assert h !in s.awaited;
      hide Herds, Herding, Indexed, Clean, Shape, Judged, FinishHerder, StatusOf;
      ForgetOrphan(s, i, limbo, steady);
    }
  }

  lemma StillAwaited(s: State, i: Id, limbo: set<Id>, steady: bool)
    requires Herds(s, limbo, steady) && InLimbo(s, i, limbo) && s.store[i].herd in s.live
    ensures s.store[i].herd in s.awaited && IsHerder(s.store, s.store[i].herd) && s.store[i].herd in s.store
  {
    var h := s.store[i].herd;
    assert IsHerder(s.store, h);
    assert HerdIndexed(s, limbo, h);
    assert i in Pending(s.store, h, limbo);
  }

  lemma ReleaseCases(s: State, i: Id)
    requires i in s.store && s.store[i].herd in s.live && s.store[i].herd in s.awaited
    requires s.store[i].herd in s.store && s.store[i].herd != i
    ensures var h := s.store[i].herd;
            var t := Unawait(s, i);
            Release(Forget(s, i), i)
            == if Get(t.awaited, h, {}) == {} && StatusOf(s.store[h]) == Waiting then FinishHerder(t, h, false)
               else Soil(t, h)
  {
    hide FinishHerder, StatusOf;
    assert Forget(s, i) == s;
  }

}
