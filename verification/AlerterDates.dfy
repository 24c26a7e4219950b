/** When alerts are notified, and what becomes of those that are left to polls. */
module AlerterDates {
  import opened Alert
  import opened CivilDate
  import opened CronField
  import opened CronSearch
  import opened AlerterModel
  import opened AlerterTheorems

  // ---------------------------------------------------------------------------------------------
  // What a corrected date means
  // ---------------------------------------------------------------------------------------------

  /** A delay of the alert's own settings, if it is positive, or else the default one. */
  function Own(own: int, default: nat): nat {
    if own > 0 then own else default
  }

  /** Matches of the visibility window are looked for after this date, for an alert that rose at a given
      date when its visibility is computed at some moment. */
  function SearchedAfter(cfg: Config, id: Id, riseDate: int, now: nat): nat {
    var date := riseDate + Own(cfg.settings(id).riseDelay, cfg.riseDelay);
    if date >= 1000 then date - 1000 else now
  }

  /** The date is the end of the rise delay, or the first match of the visibility window later than a
      second before that; it is invalid, before all others, when there is none up to the horizon of the
      moment. */
  ghost predicate IsFirstVisible(cfg: Config, id: Id, riseDate: int, now: nat, date: int) {
    match cfg.settings(id).visibility
    case NoWindow => date == riseDate + Own(cfg.settings(id).riseDelay, cfg.riseDelay)
    case Window(fields, included) =>
      var last := SearchedAfter(cfg, id, riseDate, now);
      if date == INVALID then NoMatch(fields, included, last, cfg.horizon(now))
      else 0 <= date <= cfg.horizon(now) && Earliest(fields, included, last, date)
  }

  lemma VisibleFromMeans(cfg: Config, id: Id, riseDate: int, now: nat)
    ensures IsFirstVisible(cfg, id, riseDate, now, VisibleFrom(cfg, id, riseDate, now))
  {
    var last := SearchedAfter(cfg, id, riseDate, now);
    match cfg.settings(id).visibility {
      case NoWindow =>
      case Window(fields, included) =>
        hide Earliest, NoMatch, FirstMatch, RiseDelay;
        NothingSkipped(fields, included, last / 1000 + 1);
        FirstMatchIsEarliest(fields, included, last, last / 1000 + 1, cfg.horizon(now));
    }
  }

  lemma NothingSkipped(c: Spec, included: Calendar, t: nat)
    ensures NoneBetween(c, included, t, t)
  {
  }

  // ---------------------------------------------------------------------------------------------
  // No notice is early
  // ---------------------------------------------------------------------------------------------

  /** A moment is the date of an event of the run; when the clock never went back, it is no earlier than
      one date and no later than another. */
  ghost predicate MomentOf(events: seq<Event>, m: nat, from: int, to: int) {
    m in Dates(events) && (Timely(events) ==> from <= m <= to)
  }

  /** However it was raised and canceled meanwhile, an alert that is rising becomes visible at the first
      date, from its rise date plus the rise delay on, that is in the window, as seen at some moment of
      the run after it rose; one that may rise, not before. */
  lemma FlappingDoesNotPostpone(cfg: Config, events: seq<Event>, id: Id)
    requires Possible(START, cfg, events) && id in After(START, cfg, events).stateful
    ensures var r := After(START, cfg, events).stateful[id];
            && (r.status == Rising ==>
                  exists m: nat :: m in Dates(events) && (Timely(events) ==> r.riseDate <= m)
                                && IsFirstVisible(cfg, id, r.riseDate, m, r.visibilityDate))
            && (r.status == MayRise ==>
                  exists m: nat, date: int :: m in Dates(events) && (Timely(events) ==> r.riseDate <= m)
                                && IsFirstVisible(cfg, id, r.riseDate, m, date) && date <= r.visibilityDate)
  {
    hide *;
    var s := After(START, cfg, events);
    var w := Moments(Dates(events), Timely(events));
    RunInv(cfg, events);
    IsDated(s, cfg, w, id);
    DatedMeans(cfg, id, s.stateful[id], w);
  }

  lemma DatedMeans(cfg: Config, id: Id, r: Record, w: Moments)
    requires Dated(cfg, id, r, w)
    ensures r.status == Rising ==>
              exists m: nat :: m in w.dates && (w.ordered ==> r.riseDate <= m)
                            && IsFirstVisible(cfg, id, r.riseDate, m, r.visibilityDate)
    ensures r.status == MayRise ==>
              exists m: nat, date: int :: m in w.dates && (w.ordered ==> r.riseDate <= m)
                            && IsFirstVisible(cfg, id, r.riseDate, m, date) && date <= r.visibilityDate
  {
    hide IsFirstVisible, VisibleFrom;
    if r.status == Rising {
      var m: nat :| m in w.dates && (w.ordered ==> r.riseDate <= m)
                 && r.visibilityDate == VisibleFrom(cfg, id, r.riseDate, m);
      VisibleFromMeans(cfg, id, r.riseDate, m);
    } else if r.status == MayRise {
      var m: nat :| m in w.dates && (w.ordered ==> r.riseDate <= m)
                 && VisibleFrom(cfg, id, r.riseDate, m) <= r.visibilityDate;
      VisibleFromMeans(cfg, id, r.riseDate, m);
    }
  }

  /** A raise that was not asked for immediately is, without a visibility window, never notified before
      its rise date plus the rise delay. With one, the search starts a second early: it is never notified
      before the first match later than that, which may be up to 999 milliseconds short of the delay;
      unless no second up to the horizon matched, as seen at a moment between its rise and its notice. */
  lemma NeverRaisedEarly(cfg: Config, events: seq<Event>, n: Notice)
    requires Possible(START, cfg, events) && n in After(START, cfg, events).log
    requires n.kind == Raise && !n.immediate
    ensures match cfg.settings(n.id).visibility
            case NoWindow => n.riseDate + Own(cfg.settings(n.id).riseDelay, cfg.riseDelay) <= n.at
            case Window(fields, included) =>
              exists m: nat :: MomentOf(events, m, n.riseDate, n.at)
                            && var last := SearchedAfter(cfg, n.id, n.riseDate, m);
                               || NoMatch(fields, included, last, cfg.horizon(m))
                               || exists date: nat :: Earliest(fields, included, last, date) && date <= n.at
  {
    hide *;
    RunInv(cfg, events);
    IsPunctual(After(START, cfg, events), cfg, Moments(Dates(events), Timely(events)), n);
    PunctualMeans(cfg, events, n);
  }

  lemma IsPunctual(s: State, cfg: Config, w: Moments, n: Notice)
    requires Inv(s, cfg, w) && n in s.log
    ensures Punctual(cfg, n, w)
  {
    hide Punctual, AllDated, Alternates, Counted, Conserves;
  }

  lemma PunctualMeans(cfg: Config, events: seq<Event>, n: Notice)
    requires Punctual(cfg, n, Moments(Dates(events), Timely(events))) && n.kind == Raise && !n.immediate
    ensures match cfg.settings(n.id).visibility
            case NoWindow => n.riseDate + Own(cfg.settings(n.id).riseDelay, cfg.riseDelay) <= n.at
            case Window(fields, included) =>
              exists m: nat :: MomentOf(events, m, n.riseDate, n.at)
                            && var last := SearchedAfter(cfg, n.id, n.riseDate, m);
                               || NoMatch(fields, included, last, cfg.horizon(m))
                               || exists date: nat :: Earliest(fields, included, last, date) && date <= n.at
  {
    hide VisibleFrom, Dates, Timely, Earliest, NoMatch, RiseDelay, SearchedAfter;
    var m: nat :| m in Dates(events) && (Timely(events) ==> n.riseDate <= m <= n.at)
               && VisibleFrom(cfg, n.id, n.riseDate, m) <= n.at;
    VisibleFromMeans(cfg, n.id, n.riseDate, m);
    assert MomentOf(events, m, n.riseDate, n.at);
  }

  // ---------------------------------------------------------------------------------------------
  // Each poll sees an alert once
  // ---------------------------------------------------------------------------------------------

  /** Two states agree on an alert: on what is stored, and on what channels were told. */
  ghost predicate Alike(s: State, t: State, id: Id) {
    && (id in s.stateful <==> id in t.stateful)
    && (id in s.stateful ==> s.stateful[id] == t.stateful[id])
    && Changes(s.log, id) == Changes(t.log, id)
  }

  lemma ChangesSnoc(log: seq<Notice>, n: Notice, id: Id)
    ensures Changes(log + [n], id) == Changes(log, id) + if n.id == id && n.kind != Emit then [n.kind] else []
  {
    assert (log + [n])[..|log + [n]|-1] == log;
  }

  lemma PollOfOther(s: State, other: Id, r: Record, now: nat, id: Id)
    requires other != id
    ensures Alike(s, PollStateful(s, other, r, now), id)
  {
    ChangesSnoc(s.log, Notice(other, Raise, r.count, now, false, r.riseDate), id);
    ChangesSnoc(s.log, Notice(other, Cancel, r.count, now, false, r.riseDate), id);
    hide Changes;
  }

  lemma PollOfAlike(s: State, t: State, id: Id, r: Record, now: nat)
    requires Alike(s, t, id)
    ensures Alike(PollStateful(s, id, r, now), PollStateful(t, id, r, now), id)
  {
    ChangesSnoc(s.log, Notice(id, Raise, r.count, now, false, r.riseDate), id);
    ChangesSnoc(s.log, Notice(id, Cancel, r.count, now, false, r.riseDate), id);
    ChangesSnoc(t.log, Notice(id, Raise, r.count, now, false, r.riseDate), id);
    ChangesSnoc(t.log, Notice(id, Cancel, r.count, now, false, r.riseDate), id);
    hide Changes;
  }

  lemma {:induction false} PollAllSees(s: State, was: map<Id, Record>, ids: seq<Id>, now: nat, id: Id)
    requires forall j, k :: 0 <= j < k < |ids| ==> ids[j] != ids[k]
    ensures Alike(PollAllStateful(s, was, ids, now),
                  if id in ids && id in was then PollStateful(s, id, was[id], now) else s, id)
    decreases |ids|
  {
    hide PollStateful, Changes;
    if ids != [] {
      var t := if ids[0] in was then PollStateful(s, ids[0], was[ids[0]], now) else s;
      assert ids == [ids[0]] + ids[1..];
      PollAllSees(t, was, ids[1..], now, id);
      if ids[0] in was {
        if ids[0] != id {
          PollOfOther(s, ids[0], was[ids[0]], now, id);
          if id in was {
            PollOfAlike(s, t, id, was[id], now);
          }
        }
      }
    }
  }

  lemma {:induction false} OneShotsSeeNothing(s: State, was: map<Id, Record>, ones: seq<Id>, now: nat, id: Id)
    ensures Alike(s, PollAllOneShot(s, was, ones, now), id)
    decreases |ones|
  {
    if ones != [] {
      var t := if ones[0] in was then PollOneShot(s, ones[0], was[ones[0]], now) else s;
      OneShotsSeeNothing(t, was, ones[1..], now, id);
      OneShotSeesNothing(s, ones[0], if ones[0] in was then was[ones[0]] else NewRecord(now), now, id);
      hide PollOneShot, Changes;
    }
  }

  lemma OneShotSeesNothing(s: State, one: Id, r: Record, now: nat, id: Id)
    ensures Alike(s, PollOneShot(s, one, r, now), id)
  {
    ChangesSnoc(s.log, Notice(one, Emit, r.count, now, false, r.riseDate), id);
    hide Changes;
  }

  /** Whatever else is stored and in whatever order, a poll does to an alert what its record says. */
  lemma PollSees(s: State, ids: seq<Id>, ones: seq<Id>, now: nat, id: Id)
    requires Enumerates(ids, s.stateful)
    ensures Alike(Poll(s, ids, ones, now),
                  if id in s.stateful then PollStateful(s, id, s.stateful[id], now) else s, id)
  {
    var t := PollAllStateful(s, s.stateful, ids, now);
    PollAllSees(s, s.stateful, ids, now, id);
    OneShotsSeeNothing(t, t.oneshot, ones, now, id);
    hide PollAllStateful, PollAllOneShot, PollStateful, Changes;
  }

  lemma NewNotice(s: State, t: State, id: Id)
    requires (id in t.stateful <==> id in s.stateful) && (id in s.stateful ==> t.stateful[id] == s.stateful[id])
    requires t.log == s.log || exists n: Notice :: t.log == s.log + [n] && (n.id != id || n.kind == Emit)
    ensures Alike(s, t, id)
  {
    hide Changes;
    if t.log != s.log {
      var n: Notice :| t.log == s.log + [n] && (n.id != id || n.kind == Emit);
      ChangesSnoc(s.log, n, id);
    }
  }

  lemma RaiseOfOther(s: State, cfg: Config, other: Id, immediately: bool, now: nat, id: Id)
    requires other != id
    ensures Alike(s, RaiseAlert(s, cfg, other, immediately, now), id)
  {
    hide Changes, Corrected, Inside, RiseDelay, Alike;
    NewNotice(s, RaiseAlert(s, cfg, other, immediately, now), id);
  }

  lemma CancelOfOther(s: State, cfg: Config, other: Id, immediately: bool, now: nat, id: Id)
    requires other != id
    ensures Alike(s, CancelAlert(s, cfg, other, immediately, now), id)
  {
    hide Changes, MayRiseDelay, DropDelay, Alike;
    NewNotice(s, CancelAlert(s, cfg, other, immediately, now), id);
  }

  lemma EmitSeesNothing(s: State, cfg: Config, other: Id, now: nat, id: Id)
    ensures Alike(s, EmitAlert(s, cfg, other, now), id)
  {
    hide Changes, Corrected, Inside, EmitDelay, Alike;
    NewNotice(s, EmitAlert(s, cfg, other, now), id);
  }

  /** Requests about other alerts, and emit requests, change nothing for an alert. */
  lemma OthersSeeNothing(s: State, cfg: Config, e: Event, id: Id)
    requires !e.PollEvent? && (e.EmitEvent? || e.id != id)
    ensures Alike(s, Apply(s, cfg, e), id)
  {
    hide Alike, RaiseAlert, CancelAlert, EmitAlert;
    match e {
      case RaiseEvent(other, immediately, now) => RaiseOfOther(s, cfg, other, immediately, now, id);
      case CancelEvent(other, immediately, now) => CancelOfOther(s, cfg, other, immediately, now, id);
      case EmitEvent(other, now) => EmitSeesNothing(s, cfg, other, now, id);
      case PollEvent(_, _, _) =>
    }
  }

  // ---------------------------------------------------------------------------------------------
  // An alert that is left to polls
  // ---------------------------------------------------------------------------------------------

  /** Nobody raises or cancels the alert: it is left to polls, whatever happens to others. */
  predicate LeftAlone(events: seq<Event>, id: Id) {
    forall e <- events :: (e.RaiseEvent? || e.CancelEvent?) ==> e.id != id
  }

  /** Some poll comes at or after a date. */
  predicate PolledBy(events: seq<Event>, date: int) {
    exists e <- events :: e.PollEvent? && date <= e.now
  }

  /** The alert is not there, or raised: polls leave it so. */
  lemma {:induction false} PollsLeave(s: State, cfg: Config, events: seq<Event>, id: Id)
    requires Possible(s, cfg, events) && LeftAlone(events, id)
    requires id in s.stateful ==> s.stateful[id].status == Raised
    ensures Alike(s, After(s, cfg, events), id)
    decreases |events|
  {
    if events != [] {
      var t := Apply(s, cfg, events[0]);
      assert events[0] in events && forall e <- events[1..] :: e in events;
      assert Enabled(s, events[0]) && Possible(t, cfg, events[1..]);
      assert After(s, cfg, events) == After(t, cfg, events[1..]);
      if events[0].PollEvent? {
        PollSees(s, events[0].ids, events[0].ones, events[0].now, id);
      } else {
        OthersSeeNothing(s, cfg, events[0], id);
      }
      hide Apply, Poll, Possible, After, Changes;
      PollsLeave(t, cfg, events[1..], id);
    }
  }

  /** Whatever happens to other alerts and whenever polls come, an alert that may rise and is left to
      polls stays so until a poll reaches one of its two dates; then it is dropped, without a notice,
      exactly when its cancellation date precedes its visibility date, and otherwise raised, with one
      notice. */
  lemma {:induction false} VerdictDoesNotDependOnPolls(s: State, cfg: Config, events: seq<Event>, id: Id)
    requires Possible(s, cfg, events) && LeftAlone(events, id)
    requires id in s.stateful && s.stateful[id].status == MayRise
    ensures var r := s.stateful[id];
            var t := After(s, cfg, events);
            if !PolledBy(events, r.cancellationDate) && !PolledBy(events, r.visibilityDate) then Alike(s, t, id)
            else if r.cancellationDate < r.visibilityDate then
              id !in t.stateful && Changes(t.log, id) == Changes(s.log, id)
            else
              && id in t.stateful && t.stateful[id] == r.(status := Raised, visibilityDate := INVALID)
              && Changes(t.log, id) == Changes(s.log, id) + [Raise]
    decreases |events|
  {
    if events != [] {
      var e, rest, r := events[0], events[1..], s.stateful[id];
      var t := Apply(s, cfg, e);
      assert e in events && forall f <- rest :: f in events;
      assert Enabled(s, e) && Possible(t, cfg, rest);
      assert After(s, cfg, events) == After(t, cfg, rest);
      PolledFirst(events, r.cancellationDate);
      PolledFirst(events, r.visibilityDate);
      if e.PollEvent? && (r.cancellationDate <= e.now || r.visibilityDate <= e.now) {
        PollSees(s, e.ids, e.ones, e.now, id);
        PollDecides(s, id, e.now);
        hide Apply, Poll, Possible, After, Changes, PolledBy, PollStateful;
        PollsLeave(t, cfg, rest, id);
      } else {
        if e.PollEvent? {
          PollSees(s, e.ids, e.ones, e.now, id);
        } else {
          OthersSeeNothing(s, cfg, e, id);
        }
        hide Apply, Poll, Possible, After, Changes, PolledBy;
        VerdictDoesNotDependOnPolls(t, cfg, rest, id);
      }
    }
  }

  lemma PolledFirst(events: seq<Event>, date: int)
    requires events != []
    ensures PolledBy(events, date) <==> (events[0].PollEvent? && date <= events[0].now) || PolledBy(events[1..], date)
  {
    assert events == [events[0]] + events[1..];
  }

  /** A poll that reaches one of the two dates decides, by which is earlier. */
  lemma PollDecides(s: State, id: Id, now: nat)
    requires id in s.stateful && s.stateful[id].status == MayRise
    requires s.stateful[id].cancellationDate <= now || s.stateful[id].visibilityDate <= now
    ensures var r := s.stateful[id];
            var t := PollStateful(s, id, r, now);
            if r.cancellationDate < r.visibilityDate then
              id !in t.stateful && Changes(t.log, id) == Changes(s.log, id)
            else
              && id in t.stateful && t.stateful[id] == r.(status := Raised, visibilityDate := INVALID)
              && Changes(t.log, id) == Changes(s.log, id) + [Raise]
  {
    var r := s.stateful[id];
    ChangesSnoc(s.log, Notice(id, Raise, r.count, now, false, r.riseDate), id);
    hide Changes;
  }

  // ---------------------------------------------------------------------------------------------
  // A window without a match
  // ---------------------------------------------------------------------------------------------

  /** Without a window, the rise delay is zero. With one, some second after the rise delay, less one
      second, matches and is reached already; or no second up to the horizon matches. */
  ghost predicate VisibleAtOnce(cfg: Config, id: Id, now: nat) {
    match cfg.settings(id).visibility
    case NoWindow => Own(cfg.settings(id).riseDelay, cfg.riseDelay) == 0
    case Window(fields, included) =>
      var last := SearchedAfter(cfg, id, now, now);
      || NoMatch(fields, included, last, cfg.horizon(now))
      || exists t: nat :: last < 1000 * t <= now && 1000 * t <= cfg.horizon(now) && Matches(fields, included, t)
  }

  lemma VisibleAtOnceExactly(cfg: Config, id: Id, now: nat)
    ensures VisibleFrom(cfg, id, now, now) <= now <==> VisibleAtOnce(cfg, id, now)
  {
    VisibleFromMeans(cfg, id, now, now);
    var date := VisibleFrom(cfg, id, now, now);
    match cfg.settings(id).visibility {
      case NoWindow =>
      case Window(fields, included) =>
        var last := SearchedAfter(cfg, id, now, now);
        hide Matches, VisibleFrom, SearchedAfter;
        if date != INVALID {
          EarliestOrNone(fields, included, last, date, cfg.horizon(now));
          EarliestOrNone(fields, included, last, date, now);
        }
    }
  }

  /** A new alert that is raised, and polled at the same moment, is notified at once exactly when it is
      visible at once; so is one whose visibility window never matches, whatever its rise delay. */
  lemma NotifiedAtOnceExactly(s: State, cfg: Config, id: Id, now: nat, ids: seq<Id>, ones: seq<Id>)
    requires id !in s.stateful && Inside(cfg.settings(id).acceptability, now)
    requires Possible(s, cfg, [RaiseEvent(id, false, now), PollEvent(ids, ones, now)])
    ensures var t := After(s, cfg, [RaiseEvent(id, false, now), PollEvent(ids, ones, now)]);
            Changes(t.log, id) == Changes(s.log, id) + if VisibleAtOnce(cfg, id, now) then [Raise] else []
  {
    var u := RaiseAlert(s, cfg, id, false, now);
    TwoEvents(s, cfg, RaiseEvent(id, false, now), PollEvent(ids, ones, now));
    VisibleAtOnceExactly(cfg, id, now);
    RaisedIsRising(s, cfg, id, now);
    hide *;
    PollSees(u, ids, ones, now, id);
    RisingPolled(u, id, now);
  }

  lemma TwoEvents(s: State, cfg: Config, a: Event, b: Event)
    ensures Possible(s, cfg, [a, b]) <==> Enabled(s, a) && Enabled(Apply(s, cfg, a), b)
    ensures Possible(s, cfg, [a, b]) ==> After(s, cfg, [a, b]) == Apply(Apply(s, cfg, a), cfg, b)
  {
    hide Apply, Enabled;
    var t := Apply(s, cfg, a);
    assert [a, b][1..] == [b] && [b][1..] == [];
    assert Possible(t, cfg, [b]) <==> Enabled(t, b);
    if Possible(s, cfg, [a, b]) {
      assert After(s, cfg, [a, b]) == After(t, cfg, [b]);
    }
  }

  lemma RaisedIsRising(s: State, cfg: Config, id: Id, now: nat)
    requires id !in s.stateful && Inside(cfg.settings(id).acceptability, now)
    ensures var u := RaiseAlert(s, cfg, id, false, now);
            && u.log == s.log && id in u.stateful && u.stateful[id].status == Rising
            && u.stateful[id].visibilityDate == VisibleFrom(cfg, id, now, now)
  {
    hide Corrected, Inside;
  }

  lemma RisingPolled(u: State, id: Id, now: nat)
    requires id in u.stateful && u.stateful[id].status == Rising
    ensures Changes(PollStateful(u, id, u.stateful[id], now).log, id)
         == Changes(u.log, id) + if u.stateful[id].visibilityDate <= now then [Raise] else []
  {
    var r := u.stateful[id];
    ChangesSnoc(u.log, Notice(id, Raise, r.count, now, false, r.riseDate), id);
    hide Changes;
  }

  /** The thirtieth of February, every second of it. */
  const FEBRUARY_30 := Spec(
    Field(0, seq(60, _ => true)), Field(0, seq(60, _ => true)), Field(0, seq(24, _ => true)),
    Field(1, seq(31, i => i == 29)), Field(1, seq(12, i => i == 1)), Field(0, seq(7, _ => true)))

  lemma NoFebruary30(included: Calendar, t: nat)
    ensures !Matches(FEBRUARY_30, included, t)
  {
    var d := DateOf(t / 86400);
    hide DateOf;
    assert IsSet(FEBRUARY_30.months, d.month) ==> d.month == 2;
    assert IsSet(FEBRUARY_30.days, d.day) ==> d.day == 30;
  }

  /** An alert to be shown on the thirtieth of February, at most an hour after it rose, is shown when it
      is raised. */
  lemma ShownOnNoDay(cfg: Config, id: Id, now: nat)
    requires cfg.settings(id) == Settings(NoWindow, Window(FEBRUARY_30, _ => true), 3600000, 0, 0, 0)
    ensures RiseDelay(cfg, id) == 3600000
    ensures var events := [RaiseEvent(id, false, now), PollEvent([id], [], now)];
            && Possible(START, cfg, events)
            && After(START, cfg, events).log == [Notice(id, Raise, 1, now, false, now)]
  {
    var w := cfg.settings(id).visibility;
    var last := now + 3600000 - 1000;
    forall t: nat ensures !Matches(w.fields, w.included, t) {
      NoFebruary30(w.included, t);
    }
    assert NoMatch(w.fields, w.included, last, cfg.horizon(now));
    VisibleFromMeans(cfg, id, now, now);
    assert VisibleFrom(cfg, id, now, now) == INVALID by { hide VisibleFrom; }
    TwoEvents(START, cfg, RaiseEvent(id, false, now), PollEvent([id], [], now));
    RaiseIntoNoDay(cfg, id, now);
    PollOfOne(RaiseAlert(START, cfg, id, false, now), id, now);
  }

  lemma RaiseIntoNoDay(cfg: Config, id: Id, now: nat)
    requires cfg.settings(id).acceptability == NoWindow && VisibleFrom(cfg, id, now, now) == INVALID
    ensures RaiseAlert(START, cfg, id, false, now)
         == START.(stateful := map[id := Record(Rising, now, INVALID, INVALID, 1)])
  {
    hide Corrected;
  }

  lemma PollOfOne(s: State, id: Id, now: nat)
    requires s.stateful.Keys == {id} && s.oneshot == map[] && s.stateful[id].status == Rising
    ensures Poll(s, [id], [], now) == PollStateful(s, id, s.stateful[id], now)
    ensures Enabled(s, PollEvent([id], [], now))
  {
    assert [id][1..] == [];
    hide PollStateful;
    var t := PollStateful(s, id, s.stateful[id], now);
    assert PollAllStateful(t, s.stateful, [], now) == t;
    assert PollAllStateful(s, s.stateful, [id], now) == t;
    assert id in s.stateful.Keys;
  }
}
