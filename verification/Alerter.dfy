/** The alerter: its maps and counters, and its methods, each proved to take the step the model
    defines. */
module Alerter {
  import opened Alert
  import opened CronSearch
  import opened AlerterModel

  class Alerter {
    const cfg: Config
    var statefulAlerts: map<Id, Record>
    var oneshotAlerts: map<Id, Record>
    var raiseNotifications: nat
    var cancelNotifications: nat
    var emitNotifications: nat
    var deduplicatingAlerts: int
    ghost var log: seq<Notice>
    ghost var accepted: seq<Id>

    ghost function St(): State
      reads this
    {
      State(statefulAlerts, oneshotAlerts, raiseNotifications, cancelNotifications, emitNotifications,
            deduplicatingAlerts, log, accepted)
    }

    constructor (cfg: Config)
      ensures St() == START && this.cfg == cfg
    {
      this.cfg := cfg;
      statefulAlerts, oneshotAlerts, deduplicatingAlerts := map[], map[], 0;
      raiseNotifications, cancelNotifications, emitNotifications := 0, 0, 0;
      log, accepted := [], [];
    }

    method NotifyChannels(n: Notice)
      modifies `raiseNotifications, `cancelNotifications, `emitNotifications, `log
      ensures St() == Notify(old(St()), n)
    {
      match n.kind {
        case Raise => raiseNotifications := raiseNotifications + 1;
        case Cancel => cancelNotifications := cancelNotifications + 1;
        case Emit => emitNotifications := emitNotifications + 1;
      }
      log := log + [n];
    }

    /** A changed alert is stored, a canceled or null one removed. */
    method CommitChange(id: Id, r: Record)
      modifies `statefulAlerts
      ensures St() == if r.status == Nonexistent || r.status == Canceled then Remove(old(St()), id)
                      else Store(old(St()), id, r)
    {
      if r.status == Nonexistent || r.status == Canceled {
        statefulAlerts := statefulAlerts - {id};
      } else {
        statefulAlerts := statefulAlerts[id := r];
      }
    }

    method DoActionRaise(id: Id, r: Record, now: nat, immediately: bool) returns (raised: Record)
      modifies `raiseNotifications, `cancelNotifications, `emitNotifications, `log
      ensures St() == Notify(old(St()), Notice(id, Raise, r.count, now, immediately, r.riseDate))
      ensures raised == r.(status := Raised, visibilityDate := INVALID)
    {
      raised := r.(status := Raised, visibilityDate := INVALID);
      NotifyChannels(Notice(id, Raise, raised.count, now, immediately, raised.riseDate));
    }

    method DoActionCancel(id: Id, r: Record, now: nat) returns (canceled: Record)
      modifies `raiseNotifications, `cancelNotifications, `emitNotifications, `log
      ensures St() == Notify(old(St()), Notice(id, Cancel, r.count, now, false, r.riseDate))
      ensures canceled == r.(status := Canceled)
    {
      canceled := r.(status := Canceled);
      NotifyChannels(Notice(id, Cancel, canceled.count, now, false, canceled.riseDate));
    }

    method DoRaiseAlert(id: Id, immediately: bool, now: nat)
      modifies this
      ensures St() == RaiseAlert(old(St()), cfg, id, immediately, now)
    {
      hide Inside, Corrected;
      var oldStatus := if id in statefulAlerts then statefulAlerts[id].status else Nonexistent;
      var alert := if id in statefulAlerts then statefulAlerts[id] else NewRecord(now);
      if !Inside(cfg.settings(id).acceptability, now) {
        return;
      }
      if immediately {
        match oldStatus {
          case Raised => return;
          case Dropping => alert := alert.(status := Raised, cancellationDate := INVALID);
          case _ => alert := DoActionRaise(id, alert, now, true);
        }
      } else {
        if oldStatus == Rising || oldStatus == Raised {
          return;
        } else if oldStatus == MayRise && alert.visibilityDate <= now {
          alert := DoActionRaise(id, alert, now, false);
        } else if oldStatus == Dropping {
          alert := alert.(status := Raised, cancellationDate := INVALID);
        } else {
          alert := alert.(visibilityDate := Corrected(cfg, id, alert.riseDate + RiseDelay(cfg, id), now));
          alert := alert.(status := Rising);
        }
      }
      CommitChange(id, alert);
    }

    method DoCancelAlert(id: Id, immediately: bool, now: nat)
      modifies this
      ensures St() == CancelAlert(old(St()), cfg, id, immediately, now)
    {
      hide MayRiseDelay, DropDelay;
      if id !in statefulAlerts {
        return;
      }
      var alert := statefulAlerts[id];
      if immediately {
        match alert.status {
          case Nonexistent => return;
          case Canceled => return;
          case Rising => alert := alert.(status := Nonexistent);
          case MayRise => alert := alert.(status := Nonexistent);
          case _ => alert := DoActionCancel(id, alert, now);
        }
      } else {
        match alert.status {
          case Rising =>
            alert := alert.(status := MayRise, cancellationDate := now + MayRiseDelay(cfg, id));
            alert := alert.(visibilityDate := Max(alert.visibilityDate, alert.cancellationDate));
          case Raised =>
            alert := alert.(status := Dropping, cancellationDate := now + DropDelay(cfg, id));
          case _ => return;
        }
      }
      CommitChange(id, alert);
    }

    method DoEmitAlert(id: Id, now: nat)
      modifies this
      ensures St() == EmitAlert(old(St()), cfg, id, now)
    {
      hide Inside, Corrected, EmitDelay;
      if !Inside(cfg.settings(id).acceptability, now) {
        return;
      }
      accepted := accepted + [id];
      var alert;
      if id !in oneshotAlerts {
        alert := NewRecord(now);
        if Inside(cfg.settings(id).visibility, now) {
          NotifyChannels(Notice(id, Emit, alert.count, now, false, alert.riseDate));
          alert := alert.(count := 0);
        }
        alert := alert.(visibilityDate := Corrected(cfg, id, now + EmitDelay(cfg, id), now));
        deduplicatingAlerts := deduplicatingAlerts + 1;
      } else {
        alert := oneshotAlerts[id];
        alert := alert.(count := alert.count + 1);
        if alert.visibilityDate < now {
          alert := alert.(riseDate := now);
          NotifyChannels(Notice(id, Emit, alert.count, now, false, alert.riseDate));
          alert := alert.(count := 0, visibilityDate := Corrected(cfg, id, now + EmitDelay(cfg, id), now));
        }
      }
      oneshotAlerts := oneshotAlerts[id := alert];
    }

    /** One alert of the copy of the map that a poll walks through. */
    method PollAlert(id: Id, r: Record, now: nat)
      modifies this
      ensures St() == PollStateful(old(St()), id, r, now)
    {
      match r.status {
        case MayRise =>
          if r.cancellationDate <= now && r.cancellationDate < r.visibilityDate {
            CommitChange(id, r.(status := Nonexistent));
          } else if r.visibilityDate <= now {
            var raised := DoActionRaise(id, r, now, false);
            CommitChange(id, raised);
          } else if r.cancellationDate <= now {
            // A cancellation date in the past is before the visibility date: the first test said so.
            assert false;
          }
        case Rising =>
          if r.visibilityDate <= now {
            var raised := DoActionRaise(id, r, now, false);
            CommitChange(id, raised);
          }
        case Dropping =>
          if r.cancellationDate <= now {
            var canceled := DoActionCancel(id, r, now);
            CommitChange(id, canceled);
          }
        case _ =>
      }
    }

    method PollOneShotAlert(id: Id, r: Record, now: nat)
      modifies this
      ensures St() == PollOneShot(old(St()), id, r, now)
    {
      if r.visibilityDate <= now {
        if r.count > 0 {
          NotifyChannels(Notice(id, Emit, r.count, now, false, r.riseDate));
        }
        oneshotAlerts := oneshotAlerts - {id};
        deduplicatingAlerts := deduplicatingAlerts - 1;
      }
    }

    /** Both maps are walked through as they were; each alert is seen once, in any order. */
    method AsyncProcessing(now: nat) returns (ghost ids: seq<Id>, ghost ones: seq<Id>)
      modifies this
      ensures Enumerates(ids, old(statefulAlerts)) && Enumerates(ones, old(oneshotAlerts))
      ensures St() == Poll(old(St()), ids, ones, now)
    {
      hide PollAllStateful, PollAllOneShot;
      ids := PollStatefulAlerts(now);
      OneShotsStay(old(St()), old(statefulAlerts), ids, now);
      ones := PollOneShotAlerts(now);
    }

    method PollStatefulAlerts(now: nat) returns (ghost ids: seq<Id>)
      modifies this
      ensures Enumerates(ids, old(statefulAlerts))
      ensures St() == PollAllStateful(old(St()), old(statefulAlerts), ids, now)
    {
      hide PollStateful;
      var was := statefulAlerts;
      ghost var s0 := St();
      ids := [];
      var todo := was.Keys;
      while todo != {}
        invariant todo <= was.Keys && Seen(ids, was.Keys - todo)
        invariant St() == PollAllStateful(s0, was, ids, now)
      {
        var id :| id in todo;
        PollAllSnoc(s0, was, ids, id, now);
        SeenMore(ids, was.Keys - todo, id);
        assert was.Keys - todo + {id} == was.Keys - (todo - {id});
        todo := todo - {id};
        ids := ids + [id];
        PollAlert(id, was[id], now);
      }
      assert was.Keys - todo == was.Keys;
    }

    method PollOneShotAlerts(now: nat) returns (ghost ones: seq<Id>)
      modifies this
      ensures Enumerates(ones, old(oneshotAlerts))
      ensures St() == PollAllOneShot(old(St()), old(oneshotAlerts), ones, now)
    {
      hide PollOneShot;
      var was := oneshotAlerts;
      ghost var s0 := St();
      ones := [];
      var todo := was.Keys;
      while todo != {}
        invariant todo <= was.Keys && Seen(ones, was.Keys - todo)
        invariant St() == PollAllOneShot(s0, was, ones, now)
      {
        var id :| id in todo;
        PollOnesSnoc(s0, was, ones, id, now);
        SeenMore(ones, was.Keys - todo, id);
        assert was.Keys - todo + {id} == was.Keys - (todo - {id});
        todo := todo - {id};
        ones := ones + [id];
        PollOneShotAlert(id, was[id], now);
      }
      assert was.Keys - todo == was.Keys;
    }
  }

  /** Each id of a set once. */
  ghost predicate Seen(ids: seq<Id>, those: set<Id>) {
    && (forall id :: id in ids <==> id in those)
    && (forall j, k :: 0 <= j < k < |ids| ==> ids[j] != ids[k])
  }

  lemma SeenMore(ids: seq<Id>, those: set<Id>, id: Id)
    requires Seen(ids, those) && id !in those
    ensures Seen(ids + [id], those + {id})
  {
  }

  lemma {:induction false} PollAllSnoc(s: State, was: map<Id, Record>, ids: seq<Id>, id: Id, now: nat)
    requires id in was
    ensures PollAllStateful(s, was, ids + [id], now)
         == PollStateful(PollAllStateful(s, was, ids, now), id, was[id], now)
    decreases |ids|
  {
    hide PollStateful;
    if ids == [] {
      assert ids + [id] == [id] && [id][1..] == [];
    } else {
      assert (ids + [id])[0] == ids[0] && (ids + [id])[1..] == ids[1..] + [id];
      PollAllSnoc(if ids[0] in was then PollStateful(s, ids[0], was[ids[0]], now) else s, was, ids[1..], id, now);
    }
  }

  lemma {:induction false} PollOnesSnoc(s: State, was: map<Id, Record>, ids: seq<Id>, id: Id, now: nat)
    requires id in was
    ensures PollAllOneShot(s, was, ids + [id], now)
         == PollOneShot(PollAllOneShot(s, was, ids, now), id, was[id], now)
    decreases |ids|
  {
    hide PollOneShot;
    if ids == [] {
      assert ids + [id] == [id] && [id][1..] == [];
    } else {
      assert (ids + [id])[0] == ids[0] && (ids + [id])[1..] == ids[1..] + [id];
      PollOnesSnoc(if ids[0] in was then PollOneShot(s, ids[0], was[ids[0]], now) else s, was, ids[1..], id, now);
    }
  }

  lemma {:induction false} OneShotsStay(s: State, was: map<Id, Record>, ids: seq<Id>, now: nat)
    ensures PollAllStateful(s, was, ids, now).oneshot == s.oneshot
    decreases |ids|
  {
    if ids != [] {
      OneShotsStay(if ids[0] in was then PollStateful(s, ids[0], was[ids[0]], now) else s, was, ids[1..], now);
    }
  }
}
