/** The alerter as a state and the steps that raising, canceling, emitting and polling take. */
module AlerterModel {
  import opened Alert
  import opened CronSearch

  type Id = string

  datatype Window = NoWindow | Window(fields: Spec, included: Calendar)

  datatype Settings = Settings(
    acceptability: Window, visibility: Window,
    riseDelay: int, mayriseDelay: int, dropDelay: int, duplicateEmitDelay: int)

  /** The settings of each alert, the default delays, and how far ahead windows are searched. */
  datatype Config = Config(
    settings: Id -> Settings, riseDelay: nat, mayriseDelay: nat, dropDelay: nat, duplicateEmitDelay: nat,
    horizon: nat -> int)

  /** Dates are milliseconds since the epoch; an invalid date is less than all others. */
  const INVALID := -1

  datatype Record = Record(
    status: AlertStatus, riseDate: int, visibilityDate: int, cancellationDate: int, count: nat)

  function NewRecord(now: nat): Record {
    Record(Nonexistent, now, INVALID, INVALID, 1)
  }

  datatype Kind = Raise | Cancel | Emit

  /** What channels are told. A notice of a raise also says whether it was asked for immediately. */
  datatype Notice = Notice(id: Id, kind: Kind, count: nat, at: nat, immediate: bool, riseDate: int)

  /** "log" and "accepted" only observe: the notices sent, and the emit requests that were not out
      of the acceptability window. */
  datatype State = State(
    stateful: map<Id, Record>, oneshot: map<Id, Record>,
    raises: nat, cancels: nat, emits: nat, deduplicating: int,
    log: seq<Notice>, accepted: seq<Id>)

  const START := State(map[], map[], 0, 0, 0, 0, [], [])

  function Delay(own: int, default: nat): nat {
    if own > 0 then own else default
  }

  function RiseDelay(cfg: Config, id: Id): nat { Delay(cfg.settings(id).riseDelay, cfg.riseDelay) }
  function MayRiseDelay(cfg: Config, id: Id): nat { Delay(cfg.settings(id).mayriseDelay, cfg.mayriseDelay) }
  function DropDelay(cfg: Config, id: Id): nat { Delay(cfg.settings(id).dropDelay, cfg.dropDelay) }
  function EmitDelay(cfg: Config, id: Id): nat { Delay(cfg.settings(id).duplicateEmitDelay, cfg.duplicateEmitDelay) }

  predicate Inside(w: Window, now: nat) {
    w.NoWindow? || Matches(w.fields, w.included, now / 1000)
  }

  /** The first date, from the second of the given one on, that is inside the visibility window. */
  function Corrected(cfg: Config, id: Id, date: int, now: nat): (r: int)
    ensures -1 <= r || r == date
  {
    match cfg.settings(id).visibility
    case NoWindow => date
    case Window(fields, included) =>
      var last := if date - 1000 >= 0 then date - 1000 else now;
      FirstMatch(fields, included, last / 1000 + 1, cfg.horizon(now))
  }

  // ---------------------------------------------------------------------------------------------
  // Elementary steps
  // ---------------------------------------------------------------------------------------------

  function StatusIn(s: State, id: Id): AlertStatus {
    if id in s.stateful then s.stateful[id].status else Nonexistent
  }

  function Store(s: State, id: Id, r: Record): State {
    s.(stateful := s.stateful[id := r])
  }

  function Remove(s: State, id: Id): State {
    s.(stateful := s.stateful - {id})
  }

  function Notify(s: State, n: Notice): State {
    s.(log := s.log + [n],
       raises := if n.kind == Raise then s.raises + 1 else s.raises,
       cancels := if n.kind == Cancel then s.cancels + 1 else s.cancels,
       emits := if n.kind == Emit then s.emits + 1 else s.emits)
  }

  function ActionRaise(s: State, id: Id, r: Record, now: nat, immediately: bool): State {
    Store(Notify(s, Notice(id, Raise, r.count, now, immediately, r.riseDate)), id,
          r.(status := Raised, visibilityDate := INVALID))
  }

  function ActionCancel(s: State, id: Id, r: Record, now: nat): State {
    Remove(Notify(s, Notice(id, Cancel, r.count, now, false, r.riseDate)), id)
  }

  function NoLongerCancel(s: State, id: Id, r: Record): State {
    Store(s, id, r.(status := Raised, cancellationDate := INVALID))
  }

  // ---------------------------------------------------------------------------------------------
  // Requests
  // ---------------------------------------------------------------------------------------------

  function RaiseAlert(s: State, cfg: Config, id: Id, immediately: bool, now: nat): State {
    var r := if id in s.stateful then s.stateful[id] else NewRecord(now);
    if !Inside(cfg.settings(id).acceptability, now) then s
    else
      match StatusIn(s, id)
      case Raised => s
      case Dropping => NoLongerCancel(s, id, r)
      case Rising => if immediately then ActionRaise(s, id, r, now, true) else s
      case MayRise =>
        if immediately then ActionRaise(s, id, r, now, true)
        else if r.visibilityDate <= now then ActionRaise(s, id, r, now, false)
        else StartRising(s, cfg, id, r, now)
      case _ => if immediately then ActionRaise(s, id, r, now, true) else StartRising(s, cfg, id, r, now)
  }

  function StartRising(s: State, cfg: Config, id: Id, r: Record, now: nat): State {
    Store(s, id, r.(status := Rising,
                    visibilityDate := Corrected(cfg, id, r.riseDate + RiseDelay(cfg, id), now)))
  }

  function Max(a: int, b: int): int { if a < b then b else a }

  function CancelAlert(s: State, cfg: Config, id: Id, immediately: bool, now: nat): State {
    if id !in s.stateful then s
    else
      var r := s.stateful[id];
      match r.status
      case Nonexistent => s
      case Canceled => s
      case Rising =>
        if immediately then Remove(s, id)
        else
          var date := now + MayRiseDelay(cfg, id);
          Store(s, id, r.(status := MayRise, cancellationDate := date, visibilityDate := Max(r.visibilityDate, date)))
      case MayRise => if immediately then Remove(s, id) else s
      case Raised =>
        if immediately then ActionCancel(s, id, r, now)
        else Store(s, id, r.(status := Dropping, cancellationDate := now + DropDelay(cfg, id)))
      case Dropping => if immediately then ActionCancel(s, id, r, now) else s
  }

  function KeepOneShot(s: State, id: Id, r: Record): State {
    s.(oneshot := s.oneshot[id := r])
  }

  function EmitAlert(s: State, cfg: Config, id: Id, now: nat): State {
    if !Inside(cfg.settings(id).acceptability, now) then s
    else
      var t := s.(accepted := s.accepted + [id]);
      var next := Corrected(cfg, id, now + EmitDelay(cfg, id), now);
      if id !in s.oneshot then
        var r := NewRecord(now);
        var u := t.(deduplicating := t.deduplicating + 1);
        if Inside(cfg.settings(id).visibility, now) then
          KeepOneShot(Notify(u, Notice(id, Emit, r.count, now, false, now)), id, r.(count := 0, visibilityDate := next))
        else KeepOneShot(u, id, r.(visibilityDate := next))
      else
        var r := s.oneshot[id];
        if r.visibilityDate >= now then KeepOneShot(t, id, r.(count := r.count + 1))
        else KeepOneShot(Notify(t, Notice(id, Emit, r.count + 1, now, false, now)), id,
                         r.(count := 0, riseDate := now, visibilityDate := next))
  }

  // ---------------------------------------------------------------------------------------------
  // Polling
  // ---------------------------------------------------------------------------------------------

  datatype Verdict = Wait | Drop | Show

  /** What a poll decides about an alert that may rise, from which date was reached first. */
  function Judge(r: Record, now: nat): Verdict {
    if r.cancellationDate <= now && r.cancellationDate < r.visibilityDate then Drop
    else if r.visibilityDate <= now then Show
    else if r.cancellationDate <= now then Drop
    else Wait
  }

  /** One stored alert, as it was when the poll began. */
  function PollStateful(s: State, id: Id, r: Record, now: nat): State {
    match r.status
    case MayRise =>
      (match Judge(r, now)
       case Drop => Remove(s, id)
       case Show => ActionRaise(s, id, r, now, false)
       case Wait => s)
    case Rising => if r.visibilityDate <= now then ActionRaise(s, id, r, now, false) else s
    case Dropping => if r.cancellationDate <= now then ActionCancel(s, id, r, now) else s
    case _ => s
  }

  function PollOneShot(s: State, id: Id, r: Record, now: nat): State {
    if r.visibilityDate > now then s
    else
      var t := if r.count > 0 then Notify(s, Notice(id, Emit, r.count, now, false, r.riseDate)) else s;
      t.(oneshot := t.oneshot - {id}, deduplicating := t.deduplicating - 1)
  }

  function PollAllStateful(s: State, was: map<Id, Record>, ids: seq<Id>, now: nat): State
    decreases |ids|
  {
    if ids == [] then s
    else PollAllStateful(if ids[0] in was then PollStateful(s, ids[0], was[ids[0]], now) else s, was, ids[1..], now)
  }

  function PollAllOneShot(s: State, was: map<Id, Record>, ids: seq<Id>, now: nat): State
    decreases |ids|
  {
    if ids == [] then s
    else PollAllOneShot(if ids[0] in was then PollOneShot(s, ids[0], was[ids[0]], now) else s, was, ids[1..], now)
  }

  /** Each id of a map once, in any order. */
  ghost predicate Enumerates(ids: seq<Id>, m: map<Id, Record>) {
    && (forall id :: id in ids <==> id in m)
    && (forall j, k :: 0 <= j < k < |ids| ==> ids[j] != ids[k])
  }

  function Poll(s: State, ids: seq<Id>, ones: seq<Id>, now: nat): State {
    var t := PollAllStateful(s, s.stateful, ids, now);
    PollAllOneShot(t, t.oneshot, ones, now)
  }

  // ---------------------------------------------------------------------------------------------
  // Runs
  // ---------------------------------------------------------------------------------------------

  datatype Event =
    | RaiseEvent(id: Id, immediately: bool, now: nat)
    | CancelEvent(id: Id, immediately: bool, now: nat)
    | EmitEvent(id: Id, now: nat)
    | PollEvent(ids: seq<Id>, ones: seq<Id>, now: nat)

  ghost predicate Enabled(s: State, e: Event) {
    e.PollEvent? ==> Enumerates(e.ids, s.stateful) && Enumerates(e.ones, s.oneshot)
  }

  function Apply(s: State, cfg: Config, e: Event): State {
    match e
    case RaiseEvent(id, immediately, now) => RaiseAlert(s, cfg, id, immediately, now)
    case CancelEvent(id, immediately, now) => CancelAlert(s, cfg, id, immediately, now)
    case EmitEvent(id, now) => EmitAlert(s, cfg, id, now)
    case PollEvent(ids, ones, now) => Poll(s, ids, ones, now)
  }
}
