/** What a gridboard is told of an alert over a run of the alerter, and what it misses. */
module AlertBoard {
  import opened Alert
  import opened AlerterModel
  import opened AlerterTheorems
  import opened AlerterDates
  import opened AlerterRequests
  import G = Gridboard
  import F = GridForest

  /** A request after which gridboards are told the status of an alert. */
  predicate Tells(e: Event, cfg: Config, id: Id) {
    || (e.RaiseEvent? && e.id == id && Inside(cfg.settings(id).acceptability, e.now))
    || (e.CancelEvent? && e.id == id)
  }

  /** After a raise, immediate or not, whatever the alert was, it is shown as raised. */
  lemma RaiseShows(s: State, cfg: Config, id: Id, immediately: bool, now: nat)
    requires Inside(cfg.settings(id).acceptability, now)
    ensures G.CellOf(StatusIn(RaiseAlert(s, cfg, id, immediately, now), id), now) == F.Cell(F.Raised, now)
  {
    hide Corrected, Inside;
  }

  /** After a cancel it is shown as fine. */
  lemma CancelShows(s: State, cfg: Config, id: Id, immediately: bool, now: nat)
    ensures G.CellOf(StatusIn(CancelAlert(s, cfg, id, immediately, now), id), now) == F.Cell(F.Ok, now)
  {
    hide MayRiseDelay, DropDelay, Max;
  }

  /** The cell of an alert's point, as its requests write it over a run. */
  ghost function Shown(s: State, cfg: Config, events: seq<Event>, id: Id, before: F.Cell): F.Cell
    requires Possible(s, cfg, events)
    decreases |events|
  {
    if events == [] then before
    else
      var t := Apply(s, cfg, events[0]);
      var cell := if Tells(events[0], cfg, id) then G.CellOf(StatusIn(t, id), events[0].now) else before;
      Shown(t, cfg, events[1..], id, cell)
  }

  lemma RequestShows(s: State, cfg: Config, e: Event, id: Id)
    requires Tells(e, cfg, id)
    ensures G.CellOf(StatusIn(Apply(s, cfg, e), id), e.now)
         == F.Cell(if e.RaiseEvent? then F.Raised else F.Ok, e.now)
  {
    hide RaiseAlert, CancelAlert, Inside, G.CellOf;
    match e {
      case RaiseEvent(i, immediately, now) => RaiseShows(s, cfg, i, immediately, now);
      case CancelEvent(i, immediately, now) => CancelShows(s, cfg, i, immediately, now);
      case EmitEvent(_, _) =>
      case PollEvent(_, _, _) =>
    }
  }

  lemma ShownSteps(s: State, cfg: Config, events: seq<Event>, id: Id, before: F.Cell)
    requires Possible(s, cfg, events) && events != []
    ensures Enabled(s, events[0]) && Possible(Apply(s, cfg, events[0]), cfg, events[1..])
    ensures After(s, cfg, events) == After(Apply(s, cfg, events[0]), cfg, events[1..])
    ensures Shown(s, cfg, events, id, before)
         == Shown(Apply(s, cfg, events[0]), cfg, events[1..], id,
                  if Tells(events[0], cfg, id) then
                    F.Cell(if events[0].RaiseEvent? then F.Raised else F.Ok, events[0].now)
                  else before)
  {
    if Tells(events[0], cfg, id) {
      RequestShows(s, cfg, events[0], id);
    }
    hide Apply, Enabled, G.CellOf, Tells;
  }

  lemma {:induction false} NothingTold(s: State, cfg: Config, events: seq<Event>, id: Id, before: F.Cell)
    requires Possible(s, cfg, events) && forall e <- events :: !Tells(e, cfg, id)
    ensures Shown(s, cfg, events, id, before) == before
    decreases |events|
  {
    if events != [] {
      assert events[0] in events && forall e <- events[1..] :: e in events;
      ShownSteps(s, cfg, events, id, before);
      hide *;
      NothingTold(Apply(s, cfg, events[0]), cfg, events[1..], id, before);
    }
  }

  /** What is shown is what the last request said, at the time it said so: raised after a raise, fine
      after a cancel. */
  lemma {:induction false} ShownIsTheLastRequest(s: State, cfg: Config, events: seq<Event>, id: Id, before: F.Cell,
                                                 k: nat)
    requires Possible(s, cfg, events) && k < |events| && Tells(events[k], cfg, id)
    requires forall j :: k < j < |events| ==> !Tells(events[j], cfg, id)
    ensures Shown(s, cfg, events, id, before)
         == F.Cell(if events[k].RaiseEvent? then F.Raised else F.Ok, events[k].now)
    decreases |events|
  {
    ShownSteps(s, cfg, events, id, before);
    hide *;
    var t := Apply(s, cfg, events[0]);
    if k == 0 {
      NothingTold(t, cfg, events[1..], id, F.Cell(if events[0].RaiseEvent? then F.Raised else F.Ok, events[0].now));
    } else {
      var cell := if Tells(events[0], cfg, id) then
                    F.Cell(if events[0].RaiseEvent? then F.Raised else F.Ok, events[0].now)
                  else before;
      assert events[1..][k-1] == events[k];
      ShownIsTheLastRequest(t, cfg, events[1..], id, cell, k - 1);
    }
  }

  // ---------------------------------------------------------------------------------------------
  // What is shown and what is stored
  // ---------------------------------------------------------------------------------------------

  /** A rising alert is shown as raised; one that may rise, or is dropping, as fine; and so is one that is
      gone, unless nothing was ever shown. */
  ghost predicate Agrees(s: State, id: Id, cell: F.Cell) {
    match StatusIn(s, id)
    case Rising => cell.status == F.Raised
    case MayRise => cell.status == F.Ok
    case Dropping => cell.status == F.Ok
    case Raised => cell.status == F.Raised || cell.status == F.Ok
    case _ => cell.status == F.Ok || cell == F.BLANK
  }

  lemma ToldAgrees(s: State, cfg: Config, e: Event, id: Id)
    requires Tells(e, cfg, id)
    ensures Agrees(Apply(s, cfg, e), id, F.Cell(if e.RaiseEvent? then F.Raised else F.Ok, e.now))
  {
    RequestShows(s, cfg, e, id);
    hide Apply;
  }

  lemma PolledAgrees(s: State, id: Id, now: nat, cell: F.Cell)
    requires id in s.stateful && Agrees(s, id, cell)
    ensures Agrees(PollStateful(s, id, s.stateful[id], now), id, cell)
  {
  }

  lemma AlikeAgrees(s: State, t: State, id: Id, cell: F.Cell)
    requires Alike(s, t, id) && Agrees(s, id, cell)
    ensures Agrees(t, id, cell)
  {
    hide Changes;
  }

  lemma UntoldAgrees(s: State, cfg: Config, e: Event, id: Id, cell: F.Cell)
    requires Enabled(s, e) && !Tells(e, cfg, id) && Agrees(s, id, cell)
    ensures Agrees(Apply(s, cfg, e), id, cell)
  {
    hide RaiseAlert, CancelAlert, EmitAlert, Poll, PollStateful, Alike, Agrees, Inside;
    if e.PollEvent? {
      PollSees(s, e.ids, e.ones, e.now, id);
      if id in s.stateful {
        PolledAgrees(s, id, e.now, cell);
      }
      AlikeBack(if id in s.stateful then PollStateful(s, id, s.stateful[id], e.now) else s, Apply(s, cfg, e), id);
      AlikeAgrees(if id in s.stateful then PollStateful(s, id, s.stateful[id], e.now) else s, Apply(s, cfg, e), id,
                  cell);
    } else if e.RaiseEvent? && e.id == id {
      OutOfItsWindow(s, cfg, id, e.immediately, e.now);
    } else {
      OthersSeeNothing(s, cfg, e, id);
      AlikeAgrees(s, Apply(s, cfg, e), id, cell);
    }
  }

  lemma AlikeBack(s: State, t: State, id: Id)
    requires Alike(t, s, id)
    ensures Alike(s, t, id)
  {
    hide Changes;
  }

  lemma {:induction false} RunAgrees(s: State, cfg: Config, events: seq<Event>, id: Id, before: F.Cell)
    requires Possible(s, cfg, events) && Agrees(s, id, before)
    ensures Agrees(After(s, cfg, events), id, Shown(s, cfg, events, id, before))
    decreases |events|
  {
    hide *;
    if events == [] {
      NoEvents(s, cfg, id, before);
    } else {
      var e := events[0];
      ShownSteps(s, cfg, events, id, before);
      var t := Apply(s, cfg, e);
      if Tells(e, cfg, id) {
        ToldAgrees(s, cfg, e, id);
        RunAgrees(t, cfg, events[1..], id, F.Cell(if e.RaiseEvent? then F.Raised else F.Ok, e.now));
      } else {
        UntoldAgrees(s, cfg, e, id, before);
        RunAgrees(t, cfg, events[1..], id, before);
      }
    }
  }

  lemma NoEvents(s: State, cfg: Config, id: Id, before: F.Cell)
    ensures Possible(s, cfg, []) && After(s, cfg, []) == s && Shown(s, cfg, [], id, before) == before
  {
  }

  /** Over any run, a gridboard shows as raised every alert that is rising, and as fine every one that may
      rise, is dropping or is gone; one that is raised, as its last request said. */
  lemma BoardFollowsRequests(cfg: Config, events: seq<Event>, id: Id)
    requires Possible(START, cfg, events)
    ensures Agrees(After(START, cfg, events), id, Shown(START, cfg, events, id, F.BLANK))
  {
    assert Agrees(START, id, F.BLANK);
    hide *;
    RunAgrees(START, cfg, events, id, F.BLANK);
  }

  /** A raise that comes from a poll is not told to gridboards: an alert that was rising when a cancel was
      asked for, and is left to polls, ends up raised, with a notice, while it is shown as fine, exactly
      when some poll comes once the mayrise delay is over and it was to be shown by then. */
  lemma RaisedAndShownAsFine(s: State, cfg: Config, id: Id, now: nat, rest: seq<Event>, before: F.Cell)
    requires id in s.stateful && s.stateful[id].status == Rising
    requires Possible(s, cfg, [CancelEvent(id, false, now)] + rest) && LeftAlone(rest, id)
    ensures var over := now + Own(cfg.settings(id).mayriseDelay, cfg.mayriseDelay);
            var t := After(s, cfg, [CancelEvent(id, false, now)] + rest);
            && Shown(s, cfg, [CancelEvent(id, false, now)] + rest, id, before) == F.Cell(F.Ok, now)
            && (StatusIn(t, id) == Raised <==> PolledBy(rest, over) && s.stateful[id].visibilityDate <= over)
  {
    var events := [CancelEvent(id, false, now)] + rest;
    assert events[0] == CancelEvent(id, false, now) && Tells(events[0], cfg, id);
    forall j | 0 < j < |events| ensures !Tells(events[j], cfg, id) {
      assert events[j] == rest[j-1] && events[j] in rest;
    }
    hide *;
    ShownIsTheLastRequest(s, cfg, events, id, before, 0);
    CanceledWhileRising(s, cfg, id, now, rest);
    StatusInIs(After(s, cfg, events), id);
  }

  lemma StatusInIs(s: State, id: Id)
    ensures StatusIn(s, id) == if id in s.stateful then s.stateful[id].status else Nonexistent
  {
  }
}
