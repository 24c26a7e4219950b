/** When one-shot alerts are notified: at once, or together when their delay is over. */
module AlerterEmits {
  import opened Alert
  import opened AlerterModel
  import opened AlerterTheorems
  import opened AlerterDates
  import opened AlerterRequests

  /** The notices of the emits of an alert, in order. */
  function Emits(log: seq<Notice>, id: Id): seq<Notice> {
    if log == [] then []
    else
      var last := log[|log|-1];
      Emits(log[..|log|-1], id) + if last.id == id && last.kind == Emit then [last] else []
  }

  lemma EmitsSnoc(log: seq<Notice>, n: Notice, id: Id)
    ensures Emits(log + [n], id) == Emits(log, id) + if n.id == id && n.kind == Emit then [n] else []
  {
    assert (log + [n])[..|log + [n]|-1] == log;
  }

  /** Two states agree on the emits of an alert: on what is held back, and on what was notified. */
  ghost predicate SameOnce(s: State, t: State, id: Id) {
    && (id in s.oneshot <==> id in t.oneshot)
    && (id in s.oneshot ==> s.oneshot[id] == t.oneshot[id])
    && Emits(s.log, id) == Emits(t.log, id)
  }

  // ---------------------------------------------------------------------------------------------
  // What a poll and other requests do
  // ---------------------------------------------------------------------------------------------

  lemma OneMoreNotice(s: State, t: State, id: Id)
    requires (id in t.oneshot <==> id in s.oneshot) && (id in s.oneshot ==> t.oneshot[id] == s.oneshot[id])
    requires t.log == s.log || exists n: Notice :: t.log == s.log + [n] && (n.id != id || n.kind != Emit)
    ensures SameOnce(s, t, id)
  {
    hide Emits;
    if t.log != s.log {
      var n: Notice :| t.log == s.log + [n] && (n.id != id || n.kind != Emit);
      EmitsSnoc(s.log, n, id);
    }
  }

  lemma StatefulPollSeesNothing(s: State, other: Id, r: Record, now: nat, id: Id)
    ensures SameOnce(s, PollStateful(s, other, r, now), id)
  {
    hide Emits, SameOnce;
    OneMoreNotice(s, PollStateful(s, other, r, now), id);
  }

  lemma {:induction false} StatefulsSeeNothing(s: State, was: map<Id, Record>, ids: seq<Id>, now: nat, id: Id)
    ensures SameOnce(s, PollAllStateful(s, was, ids, now), id)
    ensures PollAllStateful(s, was, ids, now).oneshot == s.oneshot
    decreases |ids|
  {
    if ids != [] {
      var t := if ids[0] in was then PollStateful(s, ids[0], was[ids[0]], now) else s;
      assert t.oneshot == s.oneshot by { hide Emits; }
      StatefulsSeeNothing(t, was, ids[1..], now, id);
      if ids[0] in was {
        StatefulPollSeesNothing(s, ids[0], was[ids[0]], now, id);
      }
      hide PollStateful, Emits;
    }
  }

  lemma OtherOneShot(s: State, other: Id, r: Record, now: nat, id: Id)
    requires other != id
    ensures SameOnce(s, PollOneShot(s, other, r, now), id)
  {
    EmitsSnoc(s.log, Notice(other, Emit, r.count, now, false, r.riseDate), id);
    hide Emits;
  }

  lemma OneShotOfSame(s: State, t: State, id: Id, r: Record, now: nat)
    requires SameOnce(s, t, id)
    ensures SameOnce(PollOneShot(s, id, r, now), PollOneShot(t, id, r, now), id)
  {
    EmitsSnoc(s.log, Notice(id, Emit, r.count, now, false, r.riseDate), id);
    EmitsSnoc(t.log, Notice(id, Emit, r.count, now, false, r.riseDate), id);
    hide Emits;
  }

  lemma {:induction false} OneShotsSee(s: State, was: map<Id, Record>, ids: seq<Id>, now: nat, id: Id)
    requires forall j, k :: 0 <= j < k < |ids| ==> ids[j] != ids[k]
    ensures SameOnce(PollAllOneShot(s, was, ids, now),
                     if id in ids && id in was then PollOneShot(s, id, was[id], now) else s, id)
    decreases |ids|
  {
    hide PollOneShot, Emits;
    if ids != [] {
      var t := if ids[0] in was then PollOneShot(s, ids[0], was[ids[0]], now) else s;
      assert ids == [ids[0]] + ids[1..];
      OneShotsSee(t, was, ids[1..], now, id);
      if ids[0] in was {
        if ids[0] != id {
          OtherOneShot(s, ids[0], was[ids[0]], now, id);
          if id in was {
            OneShotOfSame(s, t, id, was[id], now);
          }
        }
      }
    }
  }

  /** Whatever else is stored and in whatever order, a poll does to an emitted alert what its record says. */
  lemma PollSeesOnce(s: State, ids: seq<Id>, ones: seq<Id>, now: nat, id: Id)
    requires Enumerates(ones, s.oneshot)
    ensures SameOnce(Poll(s, ids, ones, now),
                     if id in s.oneshot then PollOneShot(s, id, s.oneshot[id], now) else s, id)
  {
    var t := PollAllStateful(s, s.stateful, ids, now);
    StatefulsSeeNothing(s, s.stateful, ids, now, id);
    OneShotsSee(t, t.oneshot, ones, now, id);
    if id in s.oneshot {
      OneShotOfSame(t, s, id, s.oneshot[id], now);
    }
    hide PollAllStateful, PollAllOneShot, PollOneShot, Emits;
  }

  lemma OtherEmit(s: State, cfg: Config, other: Id, now: nat, id: Id)
    requires other != id
    ensures SameOnce(s, EmitAlert(s, cfg, other, now), id)
  {
    hide Emits, Corrected, Inside, EmitDelay, SameOnce;
    OneMoreNotice(s, EmitAlert(s, cfg, other, now), id);
  }

  lemma StatefulRequest(s: State, cfg: Config, e: Event, id: Id)
    requires e.RaiseEvent? || e.CancelEvent?
    ensures SameOnce(s, Apply(s, cfg, e), id)
  {
    hide Emits, Corrected, Inside, RiseDelay, MayRiseDelay, DropDelay, SameOnce, EmitAlert, Poll;
    OneMoreNotice(s, Apply(s, cfg, e), id);
  }

  // ---------------------------------------------------------------------------------------------
  // An accepted request
  // ---------------------------------------------------------------------------------------------

  /** An accepted request is notified at once, together with all that were held back, if nothing is stored
      and the moment is inside the visibility window, or what is stored was held back long enough; and
      then the next one is not before the delay is over. Otherwise it is held back in turn. */
  lemma EmitActs(s: State, cfg: Config, id: Id, now: nat)
    requires Inside(cfg.settings(id).acceptability, now)
    ensures var t := Apply(s, cfg, EmitEvent(id, now));
            var held := if id in s.oneshot then s.oneshot[id].count else 0;
            var sends := if id in s.oneshot then s.oneshot[id].visibilityDate < now
                         else Inside(cfg.settings(id).visibility, now);
            && id in t.oneshot && t.oneshot[id].count == (if sends then 0 else held + 1)
            && Emits(t.log, id) == Emits(s.log, id)
                                   + (if sends then [Notice(id, Emit, held + 1, now, false, now)] else [])
            && (id in s.oneshot && !sends ==> t.oneshot[id].visibilityDate == s.oneshot[id].visibilityDate)
            && (sends && cfg.settings(id).visibility.NoWindow? ==>
                  t.oneshot[id].visibilityDate
                  == now + Own(cfg.settings(id).duplicateEmitDelay, cfg.duplicateEmitDelay))
  {
    var held := if id in s.oneshot then s.oneshot[id].count else 0;
    EmitsSnoc(s.log, Notice(id, Emit, held + 1, now, false, now), id);
    assert cfg.settings(id).visibility.NoWindow? ==>
             Corrected(cfg, id, now + EmitDelay(cfg, id), now) == now + EmitDelay(cfg, id);
    hide Emits, Corrected, Inside;
  }

  /** After a notice at once, all accepted requests have been notified. */
  lemma NothingIsHeldBack(s: State, cfg: Config, id: Id, now: nat)
    requires Reached(s, cfg) && Inside(cfg.settings(id).acceptability, now)
    requires Emits(Apply(s, cfg, EmitEvent(id, now)).log, id) != Emits(s.log, id)
    ensures var t := Apply(s, cfg, EmitEvent(id, now));
            Requested(t.accepted, id) == Delivered(t.log, id)
  {
    hide *;
    EmitActs(s, cfg, id, now);
    ReachedNext(s, cfg, EmitEvent(id, now));
    OneShotsAreConserved(Apply(s, cfg, EmitEvent(id, now)), cfg, id);
  }

  lemma ReachedNext(s: State, cfg: Config, e: Event)
    requires Reached(s, cfg) && (e.PollEvent? ==> Enabled(s, e))
    ensures Reached(Apply(s, cfg, e), cfg)
  {
    var events: seq<Event> :| Possible(START, cfg, events) && s == After(START, cfg, events);
    assert Enabled(s, e);
    hide Apply, Enabled;
    RunSnoc(START, cfg, events, e);
  }

  lemma {:induction false} RunSnoc(s: State, cfg: Config, events: seq<Event>, e: Event)
    requires Possible(s, cfg, events) && Enabled(After(s, cfg, events), e)
    ensures Possible(s, cfg, events + [e])
    ensures After(s, cfg, events + [e]) == Apply(After(s, cfg, events), cfg, e)
    decreases |events|
  {
    hide Apply, Enabled;
    if events == [] {
      assert [] + [e] == [e] && [e][1..] == [];
      assert Possible(Apply(s, cfg, e), cfg, []);
    } else {
      var t := Apply(s, cfg, events[0]);
      assert Possible(t, cfg, events[1..]) && After(s, cfg, events) == After(t, cfg, events[1..]);
      assert (events + [e])[0] == events[0] && (events + [e])[1..] == events[1..] + [e];
      RunSnoc(t, cfg, events[1..], e);
    }
  }

  // ---------------------------------------------------------------------------------------------
  // Not before the delay is over
  // ---------------------------------------------------------------------------------------------

  /** All further notices of the emits of an alert come at a date or later. */
  ghost predicate NoneBefore(s: State, t: State, id: Id, date: int) {
    var before, after := Emits(s.log, id), Emits(t.log, id);
    && |before| <= |after| && after[..|before|] == before
    && forall k :: |before| <= k < |after| ==> date <= after[k].at
  }

  lemma NoneBeforeTrans(s: State, t: State, u: State, id: Id, date: int, later: int)
    requires NoneBefore(s, t, id, date) && NoneBefore(t, u, id, later) && date <= later
    ensures NoneBefore(s, u, id, date)
  {
    hide Emits;
    var a, b, c := Emits(s.log, id), Emits(t.log, id), Emits(u.log, id);
    assert c[..|a|] == c[..|b|][..|a|];
    forall k | |a| <= k < |c| ensures date <= c[k].at {
      if k < |b| {
        assert c[k] == c[..|b|][k];
      }
    }
  }

  lemma SameIsNoneBefore(s: State, t: State, id: Id, date: int)
    requires SameOnce(s, t, id)
    ensures NoneBefore(s, t, id, date)
  {
    hide Emits;
  }

  lemma OneAt(s: State, t: State, id: Id, date: int, n: Notice)
    requires Emits(t.log, id) == Emits(s.log, id) + [n] && date <= n.at
    ensures NoneBefore(s, t, id, date)
  {
    hide Emits;
  }

  lemma PollActsOnce(s: State, id: Id, now: nat)
    requires id in s.oneshot
    ensures var r := s.oneshot[id];
            var t := PollOneShot(s, id, r, now);
            if r.visibilityDate > now then t == s
            else
              && id !in t.oneshot
              && Emits(t.log, id) == Emits(s.log, id)
                                     + if r.count > 0 then [Notice(id, Emit, r.count, now, false, r.riseDate)] else []
  {
    var r := s.oneshot[id];
    EmitsSnoc(s.log, Notice(id, Emit, r.count, now, false, r.riseDate), id);
    hide Emits;
  }

  lemma PollSends(s: State, ids: seq<Id>, ones: seq<Id>, now: nat, id: Id)
    requires Enumerates(ones, s.oneshot)
    ensures NoneBefore(s, Poll(s, ids, ones, now), id, now)
  {
    PollSeesOnce(s, ids, ones, now, id);
    if id in s.oneshot {
      PollActsOnce(s, id, now);
    }
    hide Poll, PollOneShot, Emits;
  }

  lemma EmitIs(s: State, cfg: Config, id: Id, now: nat)
    ensures Apply(s, cfg, EmitEvent(id, now)) == EmitAlert(s, cfg, id, now)
  {
    hide EmitAlert;
  }

  lemma EmitSends(s: State, cfg: Config, id: Id, now: nat)
    ensures NoneBefore(s, EmitAlert(s, cfg, id, now), id, now)
  {
    hide *;
    var t := EmitAlert(s, cfg, id, now);
    EmitIs(s, cfg, id, now);
    OutOfItsWindow(s, cfg, id, false, now);
    if !Inside(cfg.settings(id).acceptability, now) {
      SameEmits(s, t, id, now);
    } else {
      EmitActs(s, cfg, id, now);
      var held := if id in s.oneshot then s.oneshot[id].count else 0;
      if Emits(t.log, id) == Emits(s.log, id) + [] {
        assert Emits(s.log, id) + [] == Emits(s.log, id);
        SameEmits(s, t, id, now);
      } else {
        OneAt(s, t, id, now, Notice(id, Emit, held + 1, now, false, now));
      }
    }
  }

  /** All that an event notifies is dated at the moment of the event. */
  lemma EventSends(s: State, cfg: Config, e: Event, id: Id)
    requires Enabled(s, e)
    ensures NoneBefore(s, Apply(s, cfg, e), id, e.now)
  {
    hide RaiseAlert, CancelAlert, EmitAlert, Poll, Enumerates, NoneBefore, SameOnce;
    var t := Apply(s, cfg, e);
    match e {
      case RaiseEvent(_, _, _) =>
        StatefulRequest(s, cfg, e, id);
        SameIsNoneBefore(s, t, id, e.now);
      case CancelEvent(_, _, _) =>
        StatefulRequest(s, cfg, e, id);
        SameIsNoneBefore(s, t, id, e.now);
      case EmitEvent(other, now) =>
        if other == id {
          EmitSends(s, cfg, id, now);
        } else {
          OtherEmit(s, cfg, other, now, id);
          SameIsNoneBefore(s, t, id, now);
        }
      case PollEvent(ids, ones, now) => PollSends(s, ids, ones, now, id);
    }
  }

  lemma RunSteps(s: State, cfg: Config, events: seq<Event>)
    requires Possible(s, cfg, events) && events != [] && Timely(events)
    ensures Enabled(s, events[0]) && Possible(Apply(s, cfg, events[0]), cfg, events[1..])
    ensures After(s, cfg, events) == After(Apply(s, cfg, events[0]), cfg, events[1..])
    ensures Timely(events[1..]) && forall e <- events[1..] :: events[0].now <= e.now
  {
    forall e <- events[1..] ensures events[0].now <= e.now {
      var k :| 0 <= k < |events[1..]| && events[1..][k] == e;
      assert events[k+1] == e;
    }
    hide Apply, Enabled;
  }

  lemma {:induction false} NothingBefore(s: State, cfg: Config, events: seq<Event>, id: Id, date: int)
    requires Possible(s, cfg, events) && Timely(events) && forall e <- events :: date <= e.now
    ensures NoneBefore(s, After(s, cfg, events), id, date)
    decreases |events|
  {
    hide Emits, Apply, Enabled, NoneBefore;
    if events == [] {
      SameItself(s, id, date);
    } else {
      RunSteps(s, cfg, events);
      var t := Apply(s, cfg, events[0]);
      assert events[0] in events && forall e <- events[1..] :: e in events;
      EventSends(s, cfg, events[0], id);
      NothingBefore(t, cfg, events[1..], id, events[0].now);
      NoneBeforeTrans(s, t, After(s, cfg, events), id, events[0].now, events[0].now);
      Weaker(s, After(s, cfg, events), id, date, events[0].now);
    }
  }

  lemma SameItself(s: State, id: Id, date: int)
    ensures NoneBefore(s, s, id, date)
  {
    hide Emits;
  }

  lemma Weaker(s: State, t: State, id: Id, date: int, later: int)
    requires NoneBefore(s, t, id, later) && date <= later
    ensures NoneBefore(s, t, id, date)
  {
    hide Emits;
  }

  /** While requests are held back until a date, an event before it notifies nothing and keeps the date. */
  lemma StillHeld(s: State, cfg: Config, e: Event, id: Id)
    requires Enabled(s, e) && id in s.oneshot && e.now < s.oneshot[id].visibilityDate
    ensures var t := Apply(s, cfg, e);
            && id in t.oneshot && t.oneshot[id].visibilityDate == s.oneshot[id].visibilityDate
            && Emits(t.log, id) == Emits(s.log, id)
  {
    hide RaiseAlert, CancelAlert, EmitAlert, Poll, Enumerates, Emits, PollOneShot, Inside;
    match e {
      case RaiseEvent(_, _, _) => StatefulRequest(s, cfg, e, id);
      case CancelEvent(_, _, _) => StatefulRequest(s, cfg, e, id);
      case EmitEvent(other, now) =>
        if other != id {
          OtherEmit(s, cfg, other, now, id);
        } else {
          OutOfItsWindow(s, cfg, id, false, now);
          if Inside(cfg.settings(id).acceptability, now) {
            EmitActs(s, cfg, id, now);
          }
        }
      case PollEvent(ids, ones, now) =>
        PollSeesOnce(s, ids, ones, now, id);
        PollActsOnce(s, id, now);
    }
  }

  /** Whatever is asked for, nothing is notified before the date until which requests are held back. */
  lemma {:induction false} HeldUntil(s: State, cfg: Config, events: seq<Event>, id: Id)
    requires Possible(s, cfg, events) && Timely(events) && id in s.oneshot
    ensures NoneBefore(s, After(s, cfg, events), id, s.oneshot[id].visibilityDate)
    decreases |events|
  {
    hide Emits, Apply, Enabled, NoneBefore;
    var date := s.oneshot[id].visibilityDate;
    if events == [] {
      SameItself(s, id, date);
    } else {
      RunSteps(s, cfg, events);
      var t := Apply(s, cfg, events[0]);
      if events[0].now < date {
        StillHeld(s, cfg, events[0], id);
        HeldUntil(t, cfg, events[1..], id);
        SameEmits(s, t, id, date);
        NoneBeforeTrans(s, t, After(s, cfg, events), id, date, date);
      } else {
        EventSends(s, cfg, events[0], id);
        NothingBefore(t, cfg, events[1..], id, events[0].now);
        NoneBeforeTrans(s, t, After(s, cfg, events), id, events[0].now, events[0].now);
        Weaker(s, After(s, cfg, events), id, date, events[0].now);
      }
    }
  }

  lemma SameEmits(s: State, t: State, id: Id, date: int)
    requires Emits(t.log, id) == Emits(s.log, id)
    ensures NoneBefore(s, t, id, date)
  {
    hide Emits;
  }

  /** After a notice that a request sent, none is sent for the alert before the delay is over, when the
      clock does not go back and there is no visibility window. */
  lemma NotAgainBeforeItsDelay(s: State, cfg: Config, id: Id, now: nat, rest: seq<Event>)
    requires Possible(s, cfg, [EmitEvent(id, now)] + rest) && Timely(rest) && cfg.settings(id).visibility.NoWindow?
    requires Emits(Apply(s, cfg, EmitEvent(id, now)).log, id) != Emits(s.log, id)
    ensures NoneBefore(Apply(s, cfg, EmitEvent(id, now)), After(s, cfg, [EmitEvent(id, now)] + rest), id,
                       now + Own(cfg.settings(id).duplicateEmitDelay, cfg.duplicateEmitDelay))
  {
    FirstThen(s, cfg, EmitEvent(id, now), rest);
    OutOfItsWindow(s, cfg, id, false, now);
    EmitActs(s, cfg, id, now);
    hide *;
    HeldUntil(Apply(s, cfg, EmitEvent(id, now)), cfg, rest, id);
  }

  // ---------------------------------------------------------------------------------------------
  // What is held back is notified by a poll
  // ---------------------------------------------------------------------------------------------

  /** When no more is asked for, what is held back is notified by the first poll that reaches the date,
      all in one notice, and forgotten. */
  lemma {:induction false} NotifiedByPoll(s: State, cfg: Config, events: seq<Event>, id: Id)
    requires Possible(s, cfg, events) && id in s.oneshot && forall e <- events :: e.EmitEvent? ==> e.id != id
    ensures var r := s.oneshot[id];
            var t := After(s, cfg, events);
            if !PolledBy(events, r.visibilityDate) then SameOnce(s, t, id)
            else
              && id !in t.oneshot && |Emits(t.log, id)| == |Emits(s.log, id)| + (if r.count > 0 then 1 else 0)
              && Emits(t.log, id)[..|Emits(s.log, id)|] == Emits(s.log, id)
              && (r.count > 0 ==> Emits(t.log, id)[|Emits(s.log, id)|].count == r.count)
    decreases |events|
  {
    if events != [] {
      var e, rest, r := events[0], events[1..], s.oneshot[id];
      var t := Apply(s, cfg, e);
      assert e in events && forall f <- rest :: f in events;
      assert Enabled(s, e) && Possible(t, cfg, rest);
      assert After(s, cfg, events) == After(t, cfg, rest);
      PolledFirst(events, r.visibilityDate);
      OneEvent(s, cfg, e, id);
      hide Apply, Enabled, Possible, After, Emits, PolledBy;
      if e.PollEvent? && r.visibilityDate <= e.now {
        NobodyEmits(t, cfg, rest, id);
      } else {
        NotifiedByPoll(t, cfg, rest, id);
      }
    }
  }

  lemma OneEvent(s: State, cfg: Config, e: Event, id: Id)
    requires Enabled(s, e) && (e.EmitEvent? ==> e.id != id)
    ensures var t := Apply(s, cfg, e);
            if e.PollEvent? && id in s.oneshot && s.oneshot[id].visibilityDate <= e.now then
              && id !in t.oneshot
              && Emits(t.log, id)
                 == Emits(s.log, id)
                    + (if s.oneshot[id].count > 0 then
                         [Notice(id, Emit, s.oneshot[id].count, e.now, false, s.oneshot[id].riseDate)]
                       else [])
            else SameOnce(s, t, id)
  {
    hide RaiseAlert, CancelAlert, EmitAlert, Poll, Enumerates, Emits, PollOneShot;
    match e {
      case RaiseEvent(_, _, _) => StatefulRequest(s, cfg, e, id);
      case CancelEvent(_, _, _) => StatefulRequest(s, cfg, e, id);
      case EmitEvent(other, now) => OtherEmit(s, cfg, other, now, id);
      case PollEvent(ids, ones, now) =>
        PollSeesOnce(s, ids, ones, now, id);
        if id in s.oneshot {
          PollActsOnce(s, id, now);
        }
    }
  }

  lemma {:induction false} NobodyEmits(s: State, cfg: Config, events: seq<Event>, id: Id)
    requires Possible(s, cfg, events) && id !in s.oneshot && forall e <- events :: e.EmitEvent? ==> e.id != id
    ensures SameOnce(s, After(s, cfg, events), id)
    decreases |events|
  {
    if events != [] {
      var e, rest := events[0], events[1..];
      var t := Apply(s, cfg, e);
      assert e in events && forall f <- rest :: f in events;
      assert Enabled(s, e) && Possible(t, cfg, rest);
      assert After(s, cfg, events) == After(t, cfg, rest);
      OneEvent(s, cfg, e, id);
      hide Apply, Enabled, Possible, After, Emits;
      NobodyEmits(t, cfg, rest, id);
    }
  }
}
