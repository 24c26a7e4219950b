/** What a raise or a cancel request comes to, when the alert is then left to polls. */
module AlerterRequests {
  import opened Alert
  import opened AlerterModel
  import opened AlerterTheorems
  import opened AlerterDates
  import M = CronMeaning

  // ---------------------------------------------------------------------------------------------
  // Alerts with one date to be reached
  // ---------------------------------------------------------------------------------------------

  /** A rising alert is raised, and a dropping one canceled, by the first poll that reaches its date. */
  lemma {:induction false} LeftToPolls(s: State, cfg: Config, events: seq<Event>, id: Id)
    requires Possible(s, cfg, events) && LeftAlone(events, id)
    requires id in s.stateful && (s.stateful[id].status == Rising || s.stateful[id].status == Dropping)
    ensures var r := s.stateful[id];
            var t := After(s, cfg, events);
            if !PolledBy(events, if r.status == Rising then r.visibilityDate else r.cancellationDate) then
              Alike(s, t, id)
            else if r.status == Rising then
              && id in t.stateful && t.stateful[id] == r.(status := Raised, visibilityDate := INVALID)
              && Changes(t.log, id) == Changes(s.log, id) + [Raise]
            else
              id !in t.stateful && Changes(t.log, id) == Changes(s.log, id) + [Cancel]
    decreases |events|
  {
    if events != [] {
      var e, rest, r := events[0], events[1..], s.stateful[id];
      var date := if r.status == Rising then r.visibilityDate else r.cancellationDate;
      var t := Apply(s, cfg, e);
      assert e in events && forall f <- rest :: f in events;
      assert Enabled(s, e) && Possible(t, cfg, rest);
      assert After(s, cfg, events) == After(t, cfg, rest);
      PolledFirst(events, date);
      if e.PollEvent? {
        PollSees(s, e.ids, e.ones, e.now, id);
      } else {
        OthersSeeNothing(s, cfg, e, id);
      }
      if e.PollEvent? && date <= e.now {
        PollActs(s, id, e.now);
        hide Apply, Poll, Possible, After, Changes, PolledBy, PollStateful;
        PollsLeave(t, cfg, rest, id);
      } else {
        hide Apply, Poll, Possible, After, Changes, PolledBy;
        LeftToPolls(t, cfg, rest, id);
      }
    }
  }

  lemma PollActs(s: State, id: Id, now: nat)
    requires id in s.stateful && (s.stateful[id].status == Rising || s.stateful[id].status == Dropping)
    requires (if s.stateful[id].status == Rising then s.stateful[id].visibilityDate
              else s.stateful[id].cancellationDate) <= now
    ensures var r := s.stateful[id];
            var t := PollStateful(s, id, r, now);
            if r.status == Rising then
              && id in t.stateful && t.stateful[id] == r.(status := Raised, visibilityDate := INVALID)
              && Changes(t.log, id) == Changes(s.log, id) + [Raise]
            else
              id !in t.stateful && Changes(t.log, id) == Changes(s.log, id) + [Cancel]
  {
    var r := s.stateful[id];
    ChangesSnoc(s.log, Notice(id, Raise, r.count, now, false, r.riseDate), id);
    ChangesSnoc(s.log, Notice(id, Cancel, r.count, now, false, r.riseDate), id);
    hide Changes;
  }

  lemma FirstThen(s: State, cfg: Config, e: Event, rest: seq<Event>)
    requires Possible(s, cfg, [e] + rest)
    ensures Enabled(s, e) && Possible(Apply(s, cfg, e), cfg, rest)
    ensures After(s, cfg, [e] + rest) == After(Apply(s, cfg, e), cfg, rest)
  {
    assert ([e] + rest)[1..] == rest;
    hide Apply, Enabled;
  }

  // ---------------------------------------------------------------------------------------------
  // Cancel requests
  // ---------------------------------------------------------------------------------------------

  /** A raised alert for which a cancel is asked is canceled, with a notice, by the first poll that comes
      the drop delay later; until then it is as if nothing had been asked. */
  lemma DroppedAfterItsDelay(s: State, cfg: Config, id: Id, now: nat, rest: seq<Event>)
    requires id in s.stateful && s.stateful[id].status == Raised
    requires Possible(s, cfg, [CancelEvent(id, false, now)] + rest) && LeftAlone(rest, id)
    ensures var t := After(s, cfg, [CancelEvent(id, false, now)] + rest);
            if PolledBy(rest, now + Own(cfg.settings(id).dropDelay, cfg.dropDelay)) then
              id !in t.stateful && Changes(t.log, id) == Changes(s.log, id) + [Cancel]
            else
              && id in t.stateful && t.stateful[id].status == Dropping
              && Changes(t.log, id) == Changes(s.log, id)
  {
    FirstThen(s, cfg, CancelEvent(id, false, now), rest);
    var u := CancelAlert(s, cfg, id, false, now);
    assert u.stateful[id].status == Dropping;
    assert u.stateful[id].cancellationDate == now + Own(cfg.settings(id).dropDelay, cfg.dropDelay);
    assert u.log == s.log;
    hide Possible, After, Changes, PolledBy, LeftAlone, CancelAlert, Own;
    LeftToPolls(u, cfg, rest, id);
  }

  /** A dropping alert for which a raise is asked again stays raised: channels hear of nothing. */
  lemma RaisedWhileDropping(s: State, cfg: Config, id: Id, immediately: bool, now: nat, rest: seq<Event>)
    requires id in s.stateful && s.stateful[id].status == Dropping && Inside(cfg.settings(id).acceptability, now)
    requires Possible(s, cfg, [RaiseEvent(id, immediately, now)] + rest) && LeftAlone(rest, id)
    ensures var t := After(s, cfg, [RaiseEvent(id, immediately, now)] + rest);
            && id in t.stateful && t.stateful[id].status == Raised
            && Changes(t.log, id) == Changes(s.log, id)
  {
    FirstThen(s, cfg, RaiseEvent(id, immediately, now), rest);
    var u := RaiseAlert(s, cfg, id, immediately, now);
    assert u.stateful[id].status == Raised && u.log == s.log by { hide Corrected, Inside; }
    hide Possible, After, Changes, LeftAlone, RaiseAlert, Inside;
    PollsLeave(u, cfg, rest, id);
  }

  /** A rising alert for which a cancel is asked is gone without a notice if the mayrise delay from there
      is over before it was to be shown, and is shown otherwise; in both cases not before a poll comes
      when that delay is over. */
  lemma CanceledWhileRising(s: State, cfg: Config, id: Id, now: nat, rest: seq<Event>)
    requires id in s.stateful && s.stateful[id].status == Rising
    requires Possible(s, cfg, [CancelEvent(id, false, now)] + rest) && LeftAlone(rest, id)
    ensures var over := now + Own(cfg.settings(id).mayriseDelay, cfg.mayriseDelay);
            var t := After(s, cfg, [CancelEvent(id, false, now)] + rest);
            if !PolledBy(rest, over) then
              && id in t.stateful && t.stateful[id].status == MayRise
              && Changes(t.log, id) == Changes(s.log, id)
            else if over < s.stateful[id].visibilityDate then
              id !in t.stateful && Changes(t.log, id) == Changes(s.log, id)
            else
              && id in t.stateful && t.stateful[id].status == Raised
              && Changes(t.log, id) == Changes(s.log, id) + [Raise]
  {
    FirstThen(s, cfg, CancelEvent(id, false, now), rest);
    var u := CancelAlert(s, cfg, id, false, now);
    var over := now + Own(cfg.settings(id).mayriseDelay, cfg.mayriseDelay);
    assert u.stateful[id].status == MayRise && u.stateful[id].cancellationDate == over && u.log == s.log;
    assert u.stateful[id].visibilityDate
        == if over < s.stateful[id].visibilityDate then s.stateful[id].visibilityDate else over;
    PolledLater(rest, over, u.stateful[id].visibilityDate);
    hide Possible, After, Changes, PolledBy, LeftAlone, CancelAlert, Own;
    VerdictDoesNotDependOnPolls(u, cfg, rest, id);
  }

  lemma PolledLater(events: seq<Event>, date: int, later: int)
    requires date <= later
    ensures PolledBy(events, later) ==> PolledBy(events, date)
  {
  }

  // ---------------------------------------------------------------------------------------------
  // Raise requests
  // ---------------------------------------------------------------------------------------------

  /** An alert that is not stored and is raised rises from there: it is shown by the first poll that
      comes when its rise delay is over, or when its window first matches from there on. */
  lemma RaisedFromNothing(s: State, cfg: Config, id: Id, now: nat, rest: seq<Event>)
    requires id !in s.stateful && Inside(cfg.settings(id).acceptability, now)
    requires Possible(s, cfg, [RaiseEvent(id, false, now)] + rest) && LeftAlone(rest, id)
    ensures exists date: int ::
              && IsFirstVisible(cfg, id, now, now, date)
              && var t := After(s, cfg, [RaiseEvent(id, false, now)] + rest);
                 && id in t.stateful && t.stateful[id].riseDate == now
                 && (if PolledBy(rest, date) then
                       t.stateful[id].status == Raised && Changes(t.log, id) == Changes(s.log, id) + [Raise]
                     else
                       t.stateful[id].status == Rising && Changes(t.log, id) == Changes(s.log, id))
  {
    FirstThen(s, cfg, RaiseEvent(id, false, now), rest);
    var u := RaiseAlert(s, cfg, id, false, now);
    RaisedIsRising(s, cfg, id, now);
    assert u.stateful[id].riseDate == now by { hide Corrected, Inside; }
    var date := u.stateful[id].visibilityDate;
    VisibleFromMeans(cfg, id, now, now);
    hide Possible, After, Changes, PolledBy, LeftAlone, RaiseAlert, Inside, IsFirstVisible, VisibleFrom;
    LeftToPolls(u, cfg, rest, id);
    assert IsFirstVisible(cfg, id, now, now, date);
  }

  /** An alert that may rise for which a raise is asked again is shown at once if its visibility date is
      reached, and otherwise rises again from the date it first rose at. */
  lemma RaisedWhileItMayRise(s: State, cfg: Config, id: Id, now: nat, rest: seq<Event>)
    requires id in s.stateful && s.stateful[id].status == MayRise && Inside(cfg.settings(id).acceptability, now)
    requires Possible(s, cfg, [RaiseEvent(id, false, now)] + rest) && LeftAlone(rest, id)
    ensures exists date: int ::
              && IsFirstVisible(cfg, id, s.stateful[id].riseDate, now, date)
              && var t := After(s, cfg, [RaiseEvent(id, false, now)] + rest);
                 && id in t.stateful && t.stateful[id].riseDate == s.stateful[id].riseDate
                 && (if s.stateful[id].visibilityDate <= now || PolledBy(rest, date) then
                       t.stateful[id].status == Raised && Changes(t.log, id) == Changes(s.log, id) + [Raise]
                     else
                       t.stateful[id].status == Rising && Changes(t.log, id) == Changes(s.log, id))
  {
    FirstThen(s, cfg, RaiseEvent(id, false, now), rest);
    var r := s.stateful[id];
    var u := RaiseAlert(s, cfg, id, false, now);
    var date := VisibleFrom(cfg, id, r.riseDate, now);
    MayRiseRaised(s, cfg, id, now);
    VisibleFromMeans(cfg, id, r.riseDate, now);
    hide Possible, After, Changes, PolledBy, LeftAlone, RaiseAlert, Inside, IsFirstVisible, VisibleFrom;
    if r.visibilityDate <= now {
      PollsLeave(u, cfg, rest, id);
    } else {
      LeftToPolls(u, cfg, rest, id);
    }
    assert IsFirstVisible(cfg, id, r.riseDate, now, date);
  }

  lemma MayRiseRaised(s: State, cfg: Config, id: Id, now: nat)
    requires id in s.stateful && s.stateful[id].status == MayRise && Inside(cfg.settings(id).acceptability, now)
    ensures var r := s.stateful[id];
            var u := RaiseAlert(s, cfg, id, false, now);
            && id in u.stateful && u.stateful[id].riseDate == r.riseDate
            && if r.visibilityDate <= now then
                 u.stateful[id].status == Raised && Changes(u.log, id) == Changes(s.log, id) + [Raise]
               else
                 && u.stateful[id].status == Rising && u.log == s.log
                 && u.stateful[id].visibilityDate == VisibleFrom(cfg, id, r.riseDate, now)
  {
    var r := s.stateful[id];
    ChangesSnoc(s.log, Notice(id, Raise, r.count, now, false, r.riseDate), id);
    hide Corrected, Inside, Changes;
  }

  // ---------------------------------------------------------------------------------------------
  // Immediate requests
  // ---------------------------------------------------------------------------------------------

  predicate Heard(s: State, id: Id) {
    id in s.stateful && (s.stateful[id].status == Raised || s.stateful[id].status == Dropping)
  }

  /** An immediate raise is notified at once unless channels have been told already, and leaves the alert
      raised. */
  lemma RaisedImmediately(s: State, cfg: Config, id: Id, now: nat)
    requires Inside(cfg.settings(id).acceptability, now)
    ensures var t := RaiseAlert(s, cfg, id, true, now);
            && id in t.stateful && t.stateful[id].status == Raised
            && Changes(t.log, id) == Changes(s.log, id) + if Heard(s, id) then [] else [Raise]
  {
    var r := if id in s.stateful then s.stateful[id] else NewRecord(now);
    ChangesSnoc(s.log, Notice(id, Raise, r.count, now, true, r.riseDate), id);
    hide Corrected, Inside, Changes;
  }

  /** An immediate cancel is notified at once if channels have been told of a raise, and leaves nothing. */
  lemma CanceledImmediately(s: State, cfg: Config, id: Id, now: nat)
    requires id in s.stateful ==> s.stateful[id].status != Nonexistent && s.stateful[id].status != Canceled
    ensures var t := CancelAlert(s, cfg, id, true, now);
            && id !in t.stateful
            && Changes(t.log, id) == Changes(s.log, id) + if Heard(s, id) then [Cancel] else []
  {
    if id in s.stateful {
      var r := s.stateful[id];
      ChangesSnoc(s.log, Notice(id, Cancel, r.count, now, false, r.riseDate), id);
    }
    hide MayRiseDelay, DropDelay, Changes;
  }

  /** Out of its acceptability window, a raise changes nothing. */
  lemma OutOfItsWindow(s: State, cfg: Config, id: Id, immediately: bool, now: nat)
    ensures !Inside(cfg.settings(id).acceptability, now) ==> Apply(s, cfg, RaiseEvent(id, immediately, now)) == s
    ensures !Inside(cfg.settings(id).acceptability, now) ==> Apply(s, cfg, EmitEvent(id, now)) == s
  {
    hide Corrected, Inside;
  }

  /** A moment is inside a window when it is within a second of the calendar that the window names, or
      when there is no window. */
  lemma InsideExactly(w: Window, now: nat)
    ensures Inside(w, now)
       <==> w.NoWindow? || exists t: nat :: 1000 * t <= now < 1000 * t + 1000 && M.HoldsAt(w.fields, w.included, t)
  {
    if w.Window? {
      M.MatchesExactly(w.fields, w.included, now / 1000);
      assert forall t: nat :: 1000 * t <= now < 1000 * t + 1000 ==> t == now / 1000;
    }
    hide M.HoldsAt;
  }
}
