/** What every run of the alerter keeps. */
module AlerterTheorems {
  import opened Alert
  import opened CronSearch
  import opened AlerterModel

  // ---------------------------------------------------------------------------------------------
  // What the notices say
  // ---------------------------------------------------------------------------------------------

  /** Whether the last notice about the rising or canceling of an alert was a raise. */
  ghost predicate Up(log: seq<Notice>, id: Id) {
    log != [] &&
    var last := log[|log|-1];
    if last.id == id && last.kind == Raise then true
    else if last.id == id && last.kind == Cancel then false
    else Up(log[..|log|-1], id)
  }

  /** Raises and cancellations of an alert alternate, starting with a raise. */
  ghost predicate Alternating(log: seq<Notice>, id: Id) {
    log == [] ||
    var last := log[|log|-1];
    var before := log[..|log|-1];
    && Alternating(before, id)
    && (last.id == id && last.kind == Raise ==> !Up(before, id))
    && (last.id == id && last.kind == Cancel ==> Up(before, id))
  }

  function Delivered(log: seq<Notice>, id: Id): nat {
    if log == [] then 0
    else
      var last := log[|log|-1];
      Delivered(log[..|log|-1], id) + if last.id == id && last.kind == Emit then last.count else 0
  }

  function Requested(accepted: seq<Id>, id: Id): nat {
    if accepted == [] then 0
    else Requested(accepted[..|accepted|-1], id) + if accepted[|accepted|-1] == id then 1 else 0
  }

  lemma Logged(log: seq<Notice>, n: Notice, id: Id)
    ensures Up(log + [n], id) <==> if n.id == id && n.kind != Emit then n.kind == Raise else Up(log, id)
    ensures Alternating(log + [n], id)
       <==> Alternating(log, id) && (n.id == id && n.kind == Raise ==> !Up(log, id))
            && (n.id == id && n.kind == Cancel ==> Up(log, id))
    ensures Delivered(log + [n], id) == Delivered(log, id) + if n.id == id && n.kind == Emit then n.count else 0
  {
    assert (log + [n])[..|log + [n]|-1] == log;
  }

  lemma Accepted(accepted: seq<Id>, one: Id, id: Id)
    ensures Requested(accepted + [one], id) == Requested(accepted, id) + if one == id then 1 else 0
  {
    assert (accepted + [one])[..|accepted + [one]|-1] == accepted;
  }

  // ---------------------------------------------------------------------------------------------
  // The invariant
  // ---------------------------------------------------------------------------------------------

  predicate Active(s: AlertStatus) {
    s == Raised || s == Dropping
  }

  ghost function ActiveIds(m: map<Id, Record>): set<Id> {
    set id | id in m && Active(m[id].status)
  }

  /** The dates of the events of a run, and whether the clock never went back. */
  datatype Moments = Moments(dates: set<int>, ordered: bool)

  predicate Orderly(w: Moments, now: nat) {
    w.ordered ==> forall m <- w.dates :: m <= now
  }

  function At(w: Moments, now: nat): Moments {
    w.(dates := w.dates + {now})
  }

  /** The date at which an alert that rose at a given date becomes visible, as computed at some moment. */
  function VisibleFrom(cfg: Config, id: Id, riseDate: int, now: nat): int {
    Corrected(cfg, id, riseDate + RiseDelay(cfg, id), now)
  }

  /** A date is the one that some moment of the run computed, once the alert had risen. */
  ghost predicate Due(cfg: Config, id: Id, riseDate: int, date: int, w: Moments) {
    exists m: nat :: m in w.dates && (w.ordered ==> riseDate <= m) && date == VisibleFrom(cfg, id, riseDate, m)
  }

  ghost predicate DueBefore(cfg: Config, id: Id, riseDate: int, date: int, w: Moments) {
    exists m: nat :: m in w.dates && (w.ordered ==> riseDate <= m) && VisibleFrom(cfg, id, riseDate, m) <= date
  }

  /** A rising alert is visible when it is due, whatever raised and canceled it meanwhile; one that
      may rise not before. */
  ghost predicate Dated(cfg: Config, id: Id, r: Record, w: Moments) {
    && r.status != Nonexistent && r.status != Canceled && r.riseDate in w.dates
    && (r.status == Rising ==> Due(cfg, id, r.riseDate, r.visibilityDate, w))
    && (r.status == MayRise ==>
          DueBefore(cfg, id, r.riseDate, r.visibilityDate, w) && 0 <= r.cancellationDate <= r.visibilityDate)
  }

  /** A raise that was not immediate came when it was due, as computed at some moment before. */
  ghost predicate Punctual(cfg: Config, n: Notice, w: Moments) {
    n.kind == Raise && !n.immediate ==>
      exists m: nat :: m in w.dates && (w.ordered ==> n.riseDate <= m <= n.at)
                    && VisibleFrom(cfg, n.id, n.riseDate, m) <= n.at
  }

  ghost predicate Alternates(s: State) {
    forall id ::
      && Alternating(s.log, id)
      && (Up(s.log, id) <==> id in s.stateful && Active(s.stateful[id].status))
  }

  ghost predicate Conserves(s: State) {
    forall id :: Requested(s.accepted, id)
              == Delivered(s.log, id) + if id in s.oneshot then s.oneshot[id].count else 0
  }

  ghost predicate AllDated(s: State, cfg: Config, w: Moments) {
    forall id <- s.stateful :: Dated(cfg, id, s.stateful[id], w)
  }

  ghost predicate AllPunctual(s: State, cfg: Config, w: Moments) {
    forall n <- s.log :: Punctual(cfg, n, w)
  }

  ghost predicate Counted(s: State) {
    s.raises == s.cancels + |ActiveIds(s.stateful)| && s.deduplicating == |s.oneshot|
  }

  ghost predicate Inv(s: State, cfg: Config, w: Moments) {
    AllDated(s, cfg, w) && Alternates(s) && Counted(s) && Conserves(s) && AllPunctual(s, cfg, w)
  }

  // ---------------------------------------------------------------------------------------------
  // Elementary steps
  // ---------------------------------------------------------------------------------------------

  predicate IsActive(s: State, id: Id) {
    id in s.stateful && Active(s.stateful[id].status)
  }

  /** An alert changes or goes, without a notice: it is active as it was. */
  ghost predicate Unnoticed(s: State, t: State, id: Id) {
    && t == s.(stateful := t.stateful) && (IsActive(t, id) <==> IsActive(s, id))
    && (forall i :: i != id ==> (i in t.stateful <==> i in s.stateful))
    && (forall i :: i != id && i in t.stateful ==> t.stateful[i] == s.stateful[i])
  }

  lemma UnnoticedKeeps(s: State, t: State, cfg: Config, w: Moments, id: Id)
    requires Inv(s, cfg, w) && Unnoticed(s, t, id) && (id in t.stateful ==> Dated(cfg, id, t.stateful[id], w))
    ensures Inv(t, cfg, w)
  {
    assert AllPunctual(t, cfg, w) by { hide Punctual; }
    UnnoticedAlternates(s, t, id);
    UnnoticedDates(s, t, cfg, w, id);
    SameOneShots(s, t);
    assert Counted(t) by {
      hide AllDated, Alternates, Conserves, AllPunctual;
      assert ActiveIds(t.stateful) == ActiveIds(s.stateful);
    }
    hide AllDated, Alternates, Counted, Conserves, AllPunctual;
  }

  lemma UnnoticedAlternates(s: State, t: State, id: Id)
    requires Alternates(s) && Unnoticed(s, t, id)
    ensures Alternates(t)
  {
    hide Up, Alternating;
    forall i ensures Alternating(t.log, i) && (Up(t.log, i) <==> IsActive(t, i)) {
      assert Alternating(s.log, i) && (Up(s.log, i) <==> IsActive(s, i));
    }
  }

  lemma UnnoticedDates(s: State, t: State, cfg: Config, w: Moments, id: Id)
    requires AllDated(s, cfg, w) && Unnoticed(s, t, id) && (id in t.stateful ==> Dated(cfg, id, t.stateful[id], w))
    ensures AllDated(t, cfg, w)
  {
    hide Dated;
  }

  lemma SameOneShots(s: State, t: State)
    requires Conserves(s) && t.log == s.log && t.accepted == s.accepted && t.oneshot == s.oneshot
    ensures Conserves(t)
  {
    hide Delivered, Requested;
  }

  lemma StoreKeeps(s: State, cfg: Config, w: Moments, id: Id, r: Record)
    requires Inv(s, cfg, w) && Dated(cfg, id, r, w) && (Active(r.status) <==> IsActive(s, id))
    ensures Inv(Store(s, id, r), cfg, w)
  {
    hide Inv, Dated;
    UnnoticedKeeps(s, Store(s, id, r), cfg, w, id);
  }

  lemma RemoveKeeps(s: State, cfg: Config, w: Moments, id: Id)
    requires Inv(s, cfg, w) && !IsActive(s, id)
    ensures Inv(Remove(s, id), cfg, w)
  {
    hide Inv, Dated;
    UnnoticedKeeps(s, Remove(s, id), cfg, w, id);
  }

  /** A notice was sent and its alert was stored or removed. */
  ghost predicate Notified(s: State, t: State, n: Notice) {
    && t.log == s.log + [n] && t.accepted == s.accepted && t.oneshot == s.oneshot
    && t.deduplicating == s.deduplicating && n.kind != Emit
    && t.raises == s.raises + (if n.kind == Raise then 1 else 0)
    && t.cancels == s.cancels + (if n.kind == Cancel then 1 else 0)
    && (n.kind == Raise <==> IsActive(t, n.id)) && (n.kind == Cancel <==> IsActive(s, n.id))
    && (forall i :: i != n.id ==> (i in t.stateful <==> i in s.stateful))
    && (forall i :: i != n.id && i in t.stateful ==> t.stateful[i] == s.stateful[i])
  }

  lemma NotifiedKeeps(s: State, t: State, cfg: Config, w: Moments, n: Notice)
    requires Inv(s, cfg, w) && Notified(s, t, n) && Punctual(cfg, n, w)
    requires n.id in t.stateful ==> Dated(cfg, n.id, t.stateful[n.id], w)
    ensures Inv(t, cfg, w)
  {
    NotifiedConserves(s, t, n);
    NotifiedAlternates(s, t, n);
    NotifiedCounts(s, t, n);
    NotifiedDates(s, t, cfg, w, n);
    hide Notified, AllDated, Alternates, Counted, Conserves, AllPunctual;
  }

  lemma NotifiedConserves(s: State, t: State, n: Notice)
    requires Conserves(s) && Notified(s, t, n)
    ensures Conserves(t)
  {
    forall id ensures Delivered(t.log, id) == Delivered(s.log, id) {
      Logged(s.log, n, id);
    }
    hide Delivered, Requested;
  }

  lemma NotifiedAlternates(s: State, t: State, n: Notice)
    requires Alternates(s) && Notified(s, t, n)
    ensures Alternates(t)
  {
    forall i ensures Alternating(t.log, i) && (Up(t.log, i) <==> IsActive(t, i)) {
      Logged(s.log, n, i);
      assert Alternating(s.log, i) && (Up(s.log, i) <==> IsActive(s, i));
      hide Up, Alternating;
    }
    hide Up, Alternating;
  }

  lemma NotifiedCounts(s: State, t: State, n: Notice)
    requires Counted(s) && Notified(s, t, n)
    ensures Counted(t)
  {
    NotifiedActives(s, t, n);
    hide ActiveIds;
    if n.kind == Raise {
      OneMore(ActiveIds(s.stateful), ActiveIds(t.stateful), n.id);
    } else {
      OneMore(ActiveIds(t.stateful), ActiveIds(s.stateful), n.id);
    }
  }

  lemma OneMore(a: set<Id>, b: set<Id>, id: Id)
    requires id !in a && id in b && forall i :: i != id ==> (i in a <==> i in b)
    ensures |b| == |a| + 1
  {
    assert b == a + {id};
  }

  lemma NotifiedActives(s: State, t: State, n: Notice)
    requires Notified(s, t, n)
    ensures forall i :: i != n.id ==> (i in ActiveIds(t.stateful) <==> i in ActiveIds(s.stateful))
    ensures n.id in ActiveIds(t.stateful) <==> n.kind == Raise
    ensures n.id in ActiveIds(s.stateful) <==> n.kind == Cancel
  {
  }

  lemma NotifiedDates(s: State, t: State, cfg: Config, w: Moments, n: Notice)
    requires AllDated(s, cfg, w) && AllPunctual(s, cfg, w) && Notified(s, t, n) && Punctual(cfg, n, w)
    requires n.id in t.stateful ==> Dated(cfg, n.id, t.stateful[n.id], w)
    ensures AllDated(t, cfg, w) && AllPunctual(t, cfg, w)
  {
    hide Dated, Punctual;
  }

  lemma ActionRaiseKeeps(s: State, cfg: Config, w: Moments, id: Id, r: Record, now: nat, immediately: bool)
    requires Inv(s, cfg, w) && !IsActive(s, id) && Orderly(w, now) && r.riseDate in w.dates
    requires immediately || DueBefore(cfg, id, r.riseDate, now, w)
    ensures Inv(ActionRaise(s, id, r, now, immediately), cfg, w)
  {
    var n := Notice(id, Raise, r.count, now, immediately, r.riseDate);
    if !immediately {
      DueIsPunctual(cfg, w, n);
    }
    hide Inv, Due, DueBefore;
    NotifiedKeeps(s, ActionRaise(s, id, r, now, immediately), cfg, w, n);
  }

  lemma DueIsPunctual(cfg: Config, w: Moments, n: Notice)
    requires Orderly(w, n.at) && DueBefore(cfg, n.id, n.riseDate, n.at, w)
    ensures Punctual(cfg, n, w)
  {
    hide Corrected;
  }

  lemma ActionCancelKeeps(s: State, cfg: Config, w: Moments, id: Id, r: Record, now: nat)
    requires Inv(s, cfg, w) && IsActive(s, id)
    ensures Inv(ActionCancel(s, id, r, now), cfg, w)
  {
    hide Inv, Due, DueBefore;
    NotifiedKeeps(s, ActionCancel(s, id, r, now), cfg, w, Notice(id, Cancel, r.count, now, false, r.riseDate));
  }

  // ---------------------------------------------------------------------------------------------
  // Requests
  // ---------------------------------------------------------------------------------------------

  lemma IsDated(s: State, cfg: Config, w: Moments, id: Id)
    requires Inv(s, cfg, w) && id in s.stateful
    ensures Dated(cfg, id, s.stateful[id], w)
  {
    hide Dated, Alternates, Counted, Conserves, AllPunctual;
  }

  lemma StartRisingKeeps(s: State, cfg: Config, w: Moments, id: Id, r: Record, now: nat)
    requires Inv(s, cfg, w) && !IsActive(s, id) && now in w.dates && Orderly(w, now) && r.riseDate in w.dates
    ensures Inv(StartRising(s, cfg, id, r, now), cfg, w)
  {
    assert Due(cfg, id, r.riseDate, VisibleFrom(cfg, id, r.riseDate, now), w);
    hide Inv, Due, DueBefore, Corrected;
    StoreKeeps(s, cfg, w, id, r.(status := Rising, visibilityDate := VisibleFrom(cfg, id, r.riseDate, now)));
  }

  lemma RaiseKeeps(s: State, cfg: Config, w: Moments, id: Id, immediately: bool, now: nat)
    requires Inv(s, cfg, w) && now in w.dates && Orderly(w, now)
    ensures Inv(RaiseAlert(s, cfg, id, immediately, now), cfg, w)
  {
    var r := if id in s.stateful then s.stateful[id] else NewRecord(now);
    if id in s.stateful {
      IsDated(s, cfg, w, id);
    }
    hide Inv, ActionRaise, StartRising, Due, Inside;
    match StatusIn(s, id) {
      case Raised =>
      case Dropping => StoreKeeps(s, cfg, w, id, r.(status := Raised, cancellationDate := INVALID));
      case Rising => ActionRaiseKeeps(s, cfg, w, id, r, now, true);
      case MayRise =>
        ActionRaiseKeeps(s, cfg, w, id, r, now, true);
        if r.visibilityDate <= now {
          ActionRaiseKeeps(s, cfg, w, id, r, now, false);
        }
        StartRisingKeeps(s, cfg, w, id, r, now);
      case _ =>
        ActionRaiseKeeps(s, cfg, w, id, r, now, true);
        StartRisingKeeps(s, cfg, w, id, r, now);
    }
  }

  function MayRiseAt(s: State, id: Id, date: nat): State
    requires id in s.stateful
  {
    var r := s.stateful[id];
    Store(s, id, r.(status := MayRise, cancellationDate := date, visibilityDate := Max(r.visibilityDate, date)))
  }

  function DropAt(s: State, id: Id, date: nat): State
    requires id in s.stateful
  {
    Store(s, id, s.stateful[id].(status := Dropping, cancellationDate := date))
  }

  lemma CancelCases(s: State, cfg: Config, id: Id, immediately: bool, now: nat)
    ensures var t := CancelAlert(s, cfg, id, immediately, now);
            || t == s
            || (id in s.stateful && !IsActive(s, id) && t == Remove(s, id))
            || (StatusIn(s, id) == Rising && id in s.stateful && t == MayRiseAt(s, id, now + MayRiseDelay(cfg, id)))
            || (StatusIn(s, id) == Raised && id in s.stateful && t == DropAt(s, id, now + DropDelay(cfg, id)))
            || (IsActive(s, id) && t == ActionCancel(s, id, s.stateful[id], now))
  {
    hide ActionCancel, MayRiseDelay, DropDelay, Max;
  }

  lemma CancelKeeps(s: State, cfg: Config, w: Moments, id: Id, immediately: bool, now: nat)
    requires Inv(s, cfg, w)
    ensures Inv(CancelAlert(s, cfg, id, immediately, now), cfg, w)
  {
    CancelCases(s, cfg, id, immediately, now);
    hide Inv, CancelAlert, Remove, MayRiseAt, DropAt, ActionCancel, MayRiseDelay, DropDelay;
    var t := CancelAlert(s, cfg, id, immediately, now);
    if t != s {
      if t == Remove(s, id) && !IsActive(s, id) {
        RemoveKeeps(s, cfg, w, id);
      } else if StatusIn(s, id) == Rising {
        MayRiseKeeps(s, cfg, w, id, now + MayRiseDelay(cfg, id));
      } else if t == DropAt(s, id, now + DropDelay(cfg, id)) && StatusIn(s, id) == Raised {
        DropKeeps(s, cfg, w, id, now + DropDelay(cfg, id));
      } else {
        ActionCancelKeeps(s, cfg, w, id, s.stateful[id], now);
      }
    }
  }

  lemma MayRiseKeeps(s: State, cfg: Config, w: Moments, id: Id, date: nat)
    requires Inv(s, cfg, w) && id in s.stateful && s.stateful[id].status == Rising
    ensures Inv(MayRiseAt(s, id, date), cfg, w)
  {
    var r := s.stateful[id];
    IsDated(s, cfg, w, id);
    hide Inv, Due;
    assert DueBefore(cfg, id, r.riseDate, Max(r.visibilityDate, date), w);
    hide DueBefore;
    StoreKeeps(s, cfg, w, id, r.(status := MayRise, cancellationDate := date,
                                 visibilityDate := Max(r.visibilityDate, date)));
  }

  lemma DropKeeps(s: State, cfg: Config, w: Moments, id: Id, date: nat)
    requires Inv(s, cfg, w) && id in s.stateful && s.stateful[id].status == Raised
    ensures Inv(DropAt(s, id, date), cfg, w)
  {
    IsDated(s, cfg, w, id);
    hide Inv;
    StoreKeeps(s, cfg, w, id, s.stateful[id].(status := Dropping, cancellationDate := date));
  }

  // ---------------------------------------------------------------------------------------------
  // One-shot alerts
  // ---------------------------------------------------------------------------------------------

  /** Stateful alerts are left alone; the notice, if any, is one of a one-shot alert. */
  ghost predicate OneShotStep(s: State, t: State, id: Id, notice: seq<Notice>, asked: seq<Id>) {
    && t.stateful == s.stateful && t.raises == s.raises && t.cancels == s.cancels
    && t.log == s.log + notice && |notice| <= 1 && (notice != [] ==> notice[0].id == id && notice[0].kind == Emit)
    && t.accepted == s.accepted + asked && |asked| <= 1 && (asked != [] ==> asked[0] == id)
    && t.deduplicating == |t.oneshot|
    && (forall i :: i != id ==> (i in t.oneshot <==> i in s.oneshot))
    && (forall i :: i != id && i in t.oneshot ==> t.oneshot[i] == s.oneshot[i])
  }

  function CountIn(s: State, id: Id): nat {
    if id in s.oneshot then s.oneshot[id].count else 0
  }

  lemma OneShotKeeps(s: State, t: State, cfg: Config, w: Moments, id: Id, notice: seq<Notice>, asked: seq<Id>)
    requires Inv(s, cfg, w) && OneShotStep(s, t, id, notice, asked)
    requires CountIn(s, id) + |asked| == CountIn(t, id) + if notice == [] then 0 else notice[0].count
    ensures Inv(t, cfg, w)
  {
    OneShotConserves(s, t, id, notice, asked);
    OneShotLog(s, t, cfg, w, id, notice, asked);
    hide AllDated, Alternates, Conserves, AllPunctual, ActiveIds;
  }

  lemma OneShotConserves(s: State, t: State, id: Id, notice: seq<Notice>, asked: seq<Id>)
    requires Conserves(s) && OneShotStep(s, t, id, notice, asked)
    requires CountIn(s, id) + |asked| == CountIn(t, id) + if notice == [] then 0 else notice[0].count
    ensures Conserves(t)
  {
    forall i ensures Requested(t.accepted, i) == Delivered(t.log, i) + CountIn(t, i) {
      OneShotConservesAt(s, t, id, notice, asked, i);
    }
    hide Requested, Delivered, OneShotStep;
  }

  lemma OneShotConservesAt(s: State, t: State, id: Id, notice: seq<Notice>, asked: seq<Id>, i: Id)
    requires Requested(s.accepted, i) == Delivered(s.log, i) + CountIn(s, i) && OneShotStep(s, t, id, notice, asked)
    requires CountIn(s, id) + |asked| == CountIn(t, id) + if notice == [] then 0 else notice[0].count
    ensures Requested(t.accepted, i) == Delivered(t.log, i) + CountIn(t, i)
  {
    hide Requested, Delivered, Up, Alternating;
    if notice != [] {
      assert notice == [notice[0]];
      Logged(s.log, notice[0], i);
    }
    if asked != [] {
      assert asked == [asked[0]];
      Accepted(s.accepted, asked[0], i);
    }
    assert s.log + [] == s.log && s.accepted + [] == s.accepted;
  }

  lemma OneShotLog(s: State, t: State, cfg: Config, w: Moments, id: Id, notice: seq<Notice>, asked: seq<Id>)
    requires AllDated(s, cfg, w) && Alternates(s) && AllPunctual(s, cfg, w) && OneShotStep(s, t, id, notice, asked)
    ensures AllDated(t, cfg, w) && Alternates(t) && AllPunctual(t, cfg, w)
  {
    forall i ensures Alternating(t.log, i) && (Up(t.log, i) <==> IsActive(t, i)) {
      assert Alternating(s.log, i) && (Up(s.log, i) <==> IsActive(s, i));
      if notice != [] {
        assert notice == [notice[0]];
        Logged(s.log, notice[0], i);
      }
      assert s.log + [] == s.log;
      hide Up, Alternating;
    }
    hide Up, Alternating, Dated, DueBefore;
  }

  lemma CountsOneShots(s: State, cfg: Config, w: Moments)
    requires Inv(s, cfg, w)
    ensures s.deduplicating == |s.oneshot|
  {
    hide AllDated, Alternates, Conserves, AllPunctual, ActiveIds;
  }

  /** An emit request that is counted and sends nothing. */
  function Quiet(s: State, id: Id, r: Record): State {
    KeepOneShot(s.(accepted := s.accepted + [id], deduplicating := s.deduplicating + if id in s.oneshot then 0 else 1),
                id, r)
  }

  /** An emit request that sends a notice. */
  function Sent(s: State, id: Id, r: Record, n: Notice): State {
    KeepOneShot(Notify(s.(accepted := s.accepted + [id],
                          deduplicating := s.deduplicating + if id in s.oneshot then 0 else 1), n), id, r)
  }

  lemma EmitCases(s: State, cfg: Config, id: Id, now: nat)
    ensures var t := EmitAlert(s, cfg, id, now);
            || t == s
            || (exists r: Record :: r.count == CountIn(s, id) + 1 && t == Quiet(s, id, r))
            || (exists r: Record, n: Notice ::
                  r.count == 0 && n.id == id && n.kind == Emit && n.count == CountIn(s, id) + 1
                               && t == Sent(s, id, r, n))
  {
    hide Corrected, Inside;
    var t := EmitAlert(s, cfg, id, now);
    var next := Corrected(cfg, id, now + EmitDelay(cfg, id), now);
    if Inside(cfg.settings(id).acceptability, now) {
      var r := if id in s.oneshot then s.oneshot[id] else NewRecord(now);
      if id !in s.oneshot && Inside(cfg.settings(id).visibility, now) {
        assert t == Sent(s, id, r.(count := 0, visibilityDate := next), Notice(id, Emit, 1, now, false, now));
      } else if id !in s.oneshot {
        assert t == Quiet(s, id, r.(visibilityDate := next));
      } else if r.visibilityDate >= now {
        assert t == Quiet(s, id, r.(count := r.count + 1));
      } else {
        assert t == Sent(s, id, r.(count := 0, riseDate := now, visibilityDate := next),
                         Notice(id, Emit, r.count + 1, now, false, now));
      }
    }
  }

  lemma EmitKeeps(s: State, cfg: Config, w: Moments, id: Id, now: nat)
    requires Inv(s, cfg, w)
    ensures Inv(EmitAlert(s, cfg, id, now), cfg, w)
  {
    hide *;
    CountsOneShots(s, cfg, w);
    EmitCases(s, cfg, id, now);
    var t := EmitAlert(s, cfg, id, now);
    if t == s {
    } else if r: Record :| r.count == CountIn(s, id) + 1 && t == Quiet(s, id, r) {
      QuietKeeps(s, cfg, w, id, r);
    } else {
      var r: Record, n: Notice :| && r.count == 0 && n.id == id && n.kind == Emit && n.count == CountIn(s, id) + 1
                                  && t == Sent(s, id, r, n);
      SentKeeps(s, cfg, w, id, r, n);
    }
  }

  lemma QuietKeeps(s: State, cfg: Config, w: Moments, id: Id, r: Record)
    requires Inv(s, cfg, w) && s.deduplicating == |s.oneshot| && r.count == CountIn(s, id) + 1
    ensures Inv(Quiet(s, id, r), cfg, w)
  {
    hide Inv;
    assert s.log + [] == s.log;
    OneShotKeeps(s, Quiet(s, id, r), cfg, w, id, [], [id]);
  }

  lemma SentKeeps(s: State, cfg: Config, w: Moments, id: Id, r: Record, n: Notice)
    requires Inv(s, cfg, w) && s.deduplicating == |s.oneshot| && r.count == 0
    requires n.id == id && n.kind == Emit && n.count == CountIn(s, id) + 1
    ensures Inv(Sent(s, id, r, n), cfg, w)
  {
    hide Inv;
    OneShotKeeps(s, Sent(s, id, r, n), cfg, w, id, [n], [id]);
  }

  // ---------------------------------------------------------------------------------------------
  // Polling
  // ---------------------------------------------------------------------------------------------

  lemma PollStatefulKeeps(s: State, cfg: Config, w: Moments, id: Id, now: nat)
    requires Inv(s, cfg, w) && Orderly(w, now) && id in s.stateful
    ensures Inv(PollStateful(s, id, s.stateful[id], now), cfg, w)
  {
    var r := s.stateful[id];
    IsDated(s, cfg, w, id);
    hide Inv, ActionRaise, ActionCancel, Due;
    match r.status {
      case MayRise =>
        RemoveKeeps(s, cfg, w, id);
        if r.visibilityDate <= now {
          ActionRaiseKeeps(s, cfg, w, id, r, now, false);
        }
      case Rising =>
        if r.visibilityDate <= now {
          ActionRaiseKeeps(s, cfg, w, id, r, now, false);
        }
      case Dropping => ActionCancelKeeps(s, cfg, w, id, r, now);
      case _ =>
    }
  }

  /** The alerts that remain to be polled are as they were. */
  ghost predicate AsTheyWere(m: map<Id, Record>, was: map<Id, Record>, ids: seq<Id>) {
    && (forall j, k :: 0 <= j < k < |ids| ==> ids[j] != ids[k])
    && (forall id <- ids :: id in was && id in m && m[id] == was[id])
  }

  lemma {:induction false} PollAllStatefulKeeps(s: State, cfg: Config, w: Moments, was: map<Id, Record>, ids: seq<Id>,
                                                now: nat)
    requires Inv(s, cfg, w) && Orderly(w, now) && AsTheyWere(s.stateful, was, ids)
    ensures Inv(PollAllStateful(s, was, ids, now), cfg, w)
    ensures PollAllStateful(s, was, ids, now).oneshot == s.oneshot
    decreases |ids|
  {
    if ids != [] {
      assert ids[0] in ids;
      var t := PollStateful(s, ids[0], was[ids[0]], now);
      assert PollAllStateful(s, was, ids, now) == PollAllStateful(t, was, ids[1..], now);
      hide Inv, PollStateful, PollAllStateful;
      PollStatefulKeeps(s, cfg, w, ids[0], now);
      PollLeavesOthers(s, ids[0], was[ids[0]], now);
      OthersAsTheyWere(s.stateful, t.stateful, was, ids);
      PollAllStatefulKeeps(t, cfg, w, was, ids[1..], now);
    }
  }

  lemma OthersAsTheyWere(m: map<Id, Record>, n: map<Id, Record>, was: map<Id, Record>, ids: seq<Id>)
    requires ids != [] && AsTheyWere(m, was, ids)
    requires forall i :: i != ids[0] && i in m ==> i in n && n[i] == m[i]
    ensures AsTheyWere(n, was, ids[1..])
  {
    forall i <- ids[1..] ensures i in was && i in n && n[i] == was[i] {
      var k :| 0 <= k < |ids[1..]| && ids[1..][k] == i;
      assert ids[k+1] == i && i in ids;
    }
  }

  lemma PollLeavesOthers(s: State, id: Id, r: Record, now: nat)
    ensures var t := PollStateful(s, id, r, now);
            && t.oneshot == s.oneshot
            && forall i :: i != id && i in s.stateful ==> i in t.stateful && t.stateful[i] == s.stateful[i]
  {
  }

  lemma PollOneShotKeeps(s: State, cfg: Config, w: Moments, id: Id, now: nat)
    requires Inv(s, cfg, w) && Orderly(w, now) && id in s.oneshot
    ensures Inv(PollOneShot(s, id, s.oneshot[id], now), cfg, w)
  {
    var r := s.oneshot[id];
    var t := PollOneShot(s, id, r, now);
    if r.visibilityDate <= now {
      assert s.deduplicating == |s.oneshot|;
      hide Inv;
      var notice := if r.count > 0 then [Notice(id, Emit, r.count, now, false, r.riseDate)] else [];
      assert |t.oneshot| == |s.oneshot| - 1 by { assert t.oneshot.Keys == s.oneshot.Keys - {id}; }
      assert s.accepted + [] == s.accepted && s.log + [] == s.log;
      OneShotKeeps(s, t, cfg, w, id, notice, []);
    }
  }

  lemma {:induction false} PollAllOneShotKeeps(s: State, cfg: Config, w: Moments, was: map<Id, Record>, ids: seq<Id>,
                                               now: nat)
    requires Inv(s, cfg, w) && Orderly(w, now) && AsTheyWere(s.oneshot, was, ids)
    ensures Inv(PollAllOneShot(s, was, ids, now), cfg, w)
    decreases |ids|
  {
    if ids != [] {
      assert ids[0] in ids;
      var t := PollOneShot(s, ids[0], was[ids[0]], now);
      hide Inv;
      PollOneShotKeeps(s, cfg, w, ids[0], now);
      assert AsTheyWere(t.oneshot, was, ids[1..]);
      hide PollOneShot;
      PollAllOneShotKeeps(t, cfg, w, was, ids[1..], now);
    }
  }

  lemma PollKeeps(s: State, cfg: Config, w: Moments, ids: seq<Id>, ones: seq<Id>, now: nat)
    requires Inv(s, cfg, w) && Orderly(w, now) && Enumerates(ids, s.stateful) && Enumerates(ones, s.oneshot)
    ensures Inv(Poll(s, ids, ones, now), cfg, w)
  {
    hide Inv, PollAllStateful, PollAllOneShot;
    PollAllStatefulKeeps(s, cfg, w, s.stateful, ids, now);
    PollAllOneShotKeeps(PollAllStateful(s, s.stateful, ids, now), cfg, w, s.oneshot, ones, now);
  }

  /** What is known stays known as time passes. */
  lemma LaterKeeps(s: State, cfg: Config, w: Moments, v: Moments)
    requires Inv(s, cfg, w) && w.dates <= v.dates && w.ordered == v.ordered
    ensures Inv(s, cfg, v)
  {
    forall id <- s.stateful ensures Dated(cfg, id, s.stateful[id], v) {
      assert Dated(cfg, id, s.stateful[id], w);
      LaterDated(cfg, id, s.stateful[id], w, v);
    }
    forall n <- s.log ensures Punctual(cfg, n, v) {
      assert Punctual(cfg, n, w);
      LaterPunctual(cfg, n, w, v);
    }
    hide Dated, Punctual, Alternates, Counted, Conserves;
  }

  lemma LaterDated(cfg: Config, id: Id, r: Record, w: Moments, v: Moments)
    requires Dated(cfg, id, r, w) && w.dates <= v.dates && w.ordered == v.ordered
    ensures Dated(cfg, id, r, v)
  {
    hide VisibleFrom;
  }

  lemma LaterPunctual(cfg: Config, n: Notice, w: Moments, v: Moments)
    requires Punctual(cfg, n, w) && w.dates <= v.dates && w.ordered == v.ordered
    ensures Punctual(cfg, n, v)
  {
    hide VisibleFrom;
  }

  lemma ApplyKeeps(s: State, cfg: Config, w: Moments, e: Event)
    requires Inv(s, cfg, w) && Enabled(s, e) && Orderly(w, e.now)
    ensures Inv(Apply(s, cfg, e), cfg, At(w, e.now))
  {
    var v := At(w, e.now);
    LaterKeeps(s, cfg, w, v);
    hide Inv, RaiseAlert, CancelAlert, EmitAlert, Poll, Enumerates;
    match e {
      case RaiseEvent(id, immediately, now) => RaiseKeeps(s, cfg, v, id, immediately, now);
      case CancelEvent(id, immediately, now) => CancelKeeps(s, cfg, v, id, immediately, now);
      case EmitEvent(id, now) => EmitKeeps(s, cfg, v, id, now);
      case PollEvent(ids, ones, now) => PollKeeps(s, cfg, v, ids, ones, now);
    }
  }

  // ---------------------------------------------------------------------------------------------
  // Runs
  // ---------------------------------------------------------------------------------------------

  ghost predicate Possible(s: State, cfg: Config, events: seq<Event>)
    decreases |events|
  {
    events == [] || (Enabled(s, events[0]) && Possible(Apply(s, cfg, events[0]), cfg, events[1..]))
  }

  ghost function After(s: State, cfg: Config, events: seq<Event>): State
    requires Possible(s, cfg, events)
    decreases |events|
  {
    if events == [] then s else After(Apply(s, cfg, events[0]), cfg, events[1..])
  }

  ghost predicate Reached(s: State, cfg: Config) {
    exists events: seq<Event> :: Possible(START, cfg, events) && s == After(START, cfg, events)
  }

  function Dates(events: seq<Event>): set<int> {
    set e | e in events :: e.now
  }

  /** The clock never goes back. */
  predicate Timely(events: seq<Event>) {
    forall j, k :: 0 <= j < k < |events| ==> events[j].now <= events[k].now
  }

  lemma {:induction false} RunKeeps(s: State, cfg: Config, w: Moments, events: seq<Event>)
    requires Inv(s, cfg, w) && Possible(s, cfg, events)
    requires w.ordered ==> Timely(events) && forall e <- events, m <- w.dates :: m <= e.now
    ensures Inv(After(s, cfg, events), cfg, w.(dates := w.dates + Dates(events)))
    decreases |events|
  {
    if events == [] {
      assert w.dates + Dates(events) == w.dates;
    } else {
      var e, v := events[0], At(w, events[0].now);
      RestOfRun(w, events);
      assert Enabled(s, e) && Possible(Apply(s, cfg, e), cfg, events[1..]);
      assert After(s, cfg, events) == After(Apply(s, cfg, e), cfg, events[1..]);
      hide *;
      ApplyKeeps(s, cfg, w, e);
      RunKeeps(Apply(s, cfg, e), cfg, v, events[1..]);
    }
  }

  lemma RestOfRun(w: Moments, events: seq<Event>)
    requires events != []
    requires w.ordered ==> Timely(events) && forall e <- events, m <- w.dates :: m <= e.now
    ensures var v := At(w, events[0].now);
            && Orderly(w, events[0].now) && v.dates + Dates(events[1..]) == w.dates + Dates(events)
            && v.ordered == w.ordered
            && (w.ordered ==> Timely(events[1..]) && forall e <- events[1..], m <- v.dates :: m <= e.now)
  {
    assert events == [events[0]] + events[1..];
    forall d ensures d in Dates(events) <==> d == events[0].now || d in Dates(events[1..]) {
      if e :| e in events && e.now == d {
        assert e == events[0] || e in events[1..];
      }
    }
    if w.ordered {
      forall e <- events[1..], m <- At(w, events[0].now).dates ensures m <= e.now {
        var k :| 0 < k < |events| && events[k] == e;
        assert events[0].now <= events[k].now;
      }
    }
  }

  /** The invariant at the end of a run, and what it says when the clock never went back. */
  lemma RunInv(cfg: Config, events: seq<Event>)
    requires Possible(START, cfg, events)
    ensures Inv(After(START, cfg, events), cfg, Moments(Dates(events), Timely(events)))
  {
    var w := Moments({}, Timely(events));
    assert Inv(START, cfg, w) by {
      assert ActiveIds(START.stateful) == {};
    }
    assert w.dates + Dates(events) == Dates(events);
    hide *;
    RunKeeps(START, cfg, w, events);
  }

  lemma ReachedInv(s: State, cfg: Config) returns (w: Moments)
    requires Reached(s, cfg)
    ensures Inv(s, cfg, w)
  {
    var events: seq<Event> :| Possible(START, cfg, events) && s == After(START, cfg, events);
    w := Moments(Dates(events), Timely(events));
    hide *;
    RunInv(cfg, events);
  }

  /** The raise and cancel notices of an alert, in order. */
  function Changes(log: seq<Notice>, id: Id): seq<Kind> {
    if log == [] then []
    else
      var last := log[|log|-1];
      Changes(log[..|log|-1], id) + if last.id == id && last.kind != Emit then [last.kind] else []
  }

  lemma {:induction false} AlternatingMeans(log: seq<Notice>, id: Id)
    requires Alternating(log, id)
    ensures var c := Changes(log, id);
            && (forall k :: 0 <= k < |c| ==> c[k] == if k % 2 == 0 then Raise else Cancel)
            && (Up(log, id) <==> |c| % 2 == 1)
  {
    if log != [] {
      AlternatingMeans(log[..|log|-1], id);
    }
  }

  /** What channels see of an alert is a raise, a cancel, a raise and so on; it was raised last
      exactly when it is stored as raised or dropping. */
  lemma NoticesAlternate(s: State, cfg: Config, id: Id)
    requires Reached(s, cfg)
    ensures var c := Changes(s.log, id);
            && (forall k :: 0 <= k < |c| ==> c[k] == if k % 2 == 0 then Raise else Cancel)
            && (|c| % 2 == 1
                <==> id in s.stateful && (s.stateful[id].status == Raised || s.stateful[id].status == Dropping))
  {
    var w := ReachedInv(s, cfg);
    hide Reached, Changes, Up, Alternating, AllDated, Counted, Conserves, AllPunctual;
    assert Alternates(s) && Alternating(s.log, id) && (Up(s.log, id) <==> IsActive(s, id));
    AlternatingMeans(s.log, id);
  }

  /** No alert is stored as nonexistent or canceled, and the notices that raised less those that
      canceled are the stored alerts that are raised or dropping. */
  lemma NoticesCountTheRaised(s: State, cfg: Config)
    requires Reached(s, cfg)
    ensures forall id <- s.stateful :: s.stateful[id].status != Nonexistent && s.stateful[id].status != Canceled
    ensures s.raises - s.cancels
         == |set id | id in s.stateful && (s.stateful[id].status == Raised || s.stateful[id].status == Dropping)|
  {
    var w := ReachedInv(s, cfg);
    hide Reached, Alternates, Conserves, AllPunctual, Due, DueBefore;
    assert ActiveIds(s.stateful)
        == set id | id in s.stateful && (s.stateful[id].status == Raised || s.stateful[id].status == Dropping);
  }

  /** The emit requests accepted for an id are all in the counts of its notices or still stored. */
  lemma OneShotsAreConserved(s: State, cfg: Config, id: Id)
    requires Reached(s, cfg)
    ensures Requested(s.accepted, id) == Delivered(s.log, id) + if id in s.oneshot then s.oneshot[id].count else 0
    ensures s.deduplicating == |s.oneshot|
  {
    var w := ReachedInv(s, cfg);
    hide Reached, Alternates, AllDated, AllPunctual, Requested, Delivered;
  }

  /** An alert keeps its rise date as long as it is stored. */
  lemma RiseDateStays(s: State, cfg: Config, e: Event, id: Id)
    requires id in s.stateful && Enabled(s, e) && id in Apply(s, cfg, e).stateful
    ensures Apply(s, cfg, e).stateful[id].riseDate == s.stateful[id].riseDate
  {
    match e {
      case RaiseEvent(i, immediately, now) => hide Inside, Corrected;
      case CancelEvent(i, immediately, now) => hide MayRiseDelay, DropDelay, Max;
      case EmitEvent(i, now) => EmitLeavesStateful(s, cfg, i, now);
      case PollEvent(ids, ones, now) =>
        hide PollAllStateful, PollAllOneShot, PollStateful;
        var t := PollAllStateful(s, s.stateful, ids, now);
        PollKeepsDates(s, s.stateful, ids, now);
        OneShotsLeaveStateful(t, t.oneshot, ones, now);
    }
  }

  lemma EmitLeavesStateful(s: State, cfg: Config, id: Id, now: nat)
    ensures EmitAlert(s, cfg, id, now).stateful == s.stateful
  {
    hide Corrected, Inside;
  }

  lemma {:induction false} OneShotsLeaveStateful(s: State, was: map<Id, Record>, ids: seq<Id>, now: nat)
    ensures PollAllOneShot(s, was, ids, now).stateful == s.stateful
    decreases |ids|
  {
    if ids != [] {
      OneShotsLeaveStateful(if ids[0] in was then PollOneShot(s, ids[0], was[ids[0]], now) else s, was, ids[1..], now);
    }
  }

  lemma {:induction false} PollKeepsDates(s: State, was: map<Id, Record>, ids: seq<Id>, now: nat)
    requires forall id <- s.stateful :: id in was && s.stateful[id].riseDate == was[id].riseDate
    ensures forall id <- PollAllStateful(s, was, ids, now).stateful ::
              id in was && PollAllStateful(s, was, ids, now).stateful[id].riseDate == was[id].riseDate
    decreases |ids|
  {
    if ids != [] {
      PollKeepsDates(if ids[0] in was then PollStateful(s, ids[0], was[ids[0]], now) else s, was, ids[1..], now);
    }
  }
}
