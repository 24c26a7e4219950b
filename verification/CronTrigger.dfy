/** Cron triggers: fields as arrays, the parser, the printer, and the cached search. */
module CronTrigger {
  import opened CivilDate
  import opened CronField
  import opened CronSearch
  import opened CronMeaning
  import opened CronText

  /** The values of a field between its bounds. */
  class FieldArray {
    const min: nat
    const max: nat
    const values: array<bool>

    function F(): (f: Field)
      reads values
      ensures f.min == min && f.values == values[..]
    {
      Field(min, values[..])
    }

    predicate Fits() {
      min <= max && values.Length == max - min + 1
    }

    constructor (min: nat, max: nat)
      requires min <= max
      ensures Fits() && fresh(values) && this.min == min && this.max == max && F() == BlankField(min, max - min + 1)
    {
      this.min, this.max := min, max;
      values := new bool[max - min + 1](_ => false);
      new;
      assert values[..] == BlankField(min, max - min + 1).values;
    }

    method SetRange(start0: int, stop0: int, modulo0: int)
      requires Fits()
      modifies values
      ensures F() == Set(old(F()), start0, stop0, modulo0)
    {
      var start, stop, modulo := start0, stop0, modulo0;
      if start == -1 {
        start := min;
      }
      if stop == -1 {
        stop := max;
      }
      if modulo < 1 {
        modulo := 1;
      }
      if min <= start <= max && min <= stop <= max {
        var i := start;
        HitWithin(start, stop, modulo);
        hide Hit, OnStep;
        while i <= max && i <= stop
          invariant OnStep(start, modulo, i)
          invariant forall k :: 0 <= k < values.Length ==>
                      values[k] == (old(values[k]) || (min + k < i && Hit(start, stop, modulo, min + k)))
          decreases stop - i
        {
          values[i - min] := true;
          NextHit(start, stop, modulo, i);
          i := i + modulo;
        }
        assert values[..] == Set(old(F()), start0, stop0, modulo0).values;
      }
    }

    method AllSet() returns (all: bool)
      ensures all <==> forall k :: 0 <= k < values.Length ==> values[k]
    {
      all := true;
      for i := 0 to values.Length
        invariant all <==> forall k :: 0 <= k < i ==> values[k]
      {
        if !values[i] {
          all := false;
        }
      }
    }

    /** The runs of set values, each printed after a comma when it ends. */
    method Runs() returns (s: string)
      requires Fits()
      ensures s == Left(F(), 0, 1)
    {
      ghost var f := F();
      assert 0 < |f.values| && values.Length == |f.values|;
      hide *;
      var runs := "";
      var prev: nat, value := 0, values[0];
      NothingPrinted(f);
      for i: nat := 1 to values.Length
        invariant Printing(f, runs, prev, i, value)
      {
        RunEnds(f, runs, prev, i, value);
        if values[i] != value {
          if value {
            runs := runs + RunString(prev + min, i + min - 1);
          }
          prev := i;
          value := values[i];
        }
      }
      LastRunEnds(f, runs, prev, value);
      if value {
        runs := runs + RunString(prev + min, values.Length + min - 1);
      }
      return runs;
    }

    /** The first comma is dropped. */
    method ToString() returns (s: string)
      requires Fits()
      ensures s == Print(F())
    {
      PrintCases(F());
      hide *;
      var all := AllSet();
      if all {
        return "*";
      }
      s := Runs();
      s := if s == "" then "ERROR" else s[1..];
    }

    /** The steps of the text of a field; false, with nothing set, when one is not a step. */
    method Parse(text: string, weekday: bool) returns (ok: bool)
      requires Fits() && IsNull(F())
      modifies values
      ensures ok <==> AllSteps(StepsOf(text))
      ensures F() == if ok then SetSteps(old(F()), StepsOf(text), weekday) else old(F())
    {
      ghost var f := F();
      var steps := StepsOf(text);
      for k := 0 to |steps|
        invariant forall j :: 0 <= j < k ==> steps[j].Step?
        invariant F() == f
      {
        if steps[k].NoStep? {
          assert steps[k] in steps && !IsStep(steps[k]);
          return false;
        }
      }
      StepsHaveDigits(text);
      for k := 0 to |steps|
        invariant AllSteps(steps[k..]) && SetSteps(F(), steps[k..], weekday) == SetSteps(f, steps, weekday)
      {
        assert steps[k..][0] == steps[k] && steps[k] in steps[k..];
        assert steps[k..][1..] == steps[k+1..];
        assert forall s <- steps[k+1..] :: s in steps[k..];
        var step := steps[k];
        var start := ToInt(step.start);
        var stop := ToInt(step.stop);
        if stop == -1 {
          stop := if step.modulo == "" then start else -1;
        }
        var modulo := ToInt(step.modulo);
        if modulo == -1 {
          modulo := 0;
        }
        if weekday {
          SetRange(Remainder(start, 7), Remainder(stop, 7), modulo);
        } else {
          SetRange(start, stop, modulo);
        }
      }
      ok := true;
    }
  }

  ghost predicate OnStep(start: int, modulo: int, i: int)
    requires 0 < modulo
  {
    start <= i && (i - start) % modulo == 0
  }

  lemma HitWithin(start: int, stop: int, modulo: int)
    requires 0 < modulo
    ensures OnStep(start, modulo, start)
    ensures forall v :: Hit(start, stop, modulo, v) ==> start <= v <= stop
  {
  }

  lemma NextHit(start: int, stop: int, modulo: int, i: int)
    requires 0 < modulo && OnStep(start, modulo, i)
    ensures OnStep(start, modulo, i + modulo)
    ensures forall v :: i <= v < i + modulo ==> (Hit(start, stop, modulo, v) <==> v == i && v <= stop)
  {
    var n := (i - start) / modulo;
    assert i - start == n * modulo;
    RemainderIs(modulo, n + 1, 0);
    forall v | i <= v < i + modulo ensures Hit(start, stop, modulo, v) <==> v == i && v <= stop {
      RemainderIs(modulo, n, v - i);
      assert v - start == n * modulo + (v - i);
    }
  }

  lemma Product(n: int, m: int)
    requires 0 < m
    ensures n >= 0 ==> n * m >= 0
    ensures n >= 1 ==> n * m >= m
    ensures n <= -1 ==> n * m <= -m
  {
  }

  lemma RemainderIs(m: int, q: int, r: int)
    requires 0 <= r < m
    ensures (q * m + r) % m == r
  {
    var a := q * m + r;
    var q', r' := a / m, a % m;
    assert a == q' * m + r';
    assert (q - q') * m == r' - r;
    Product(q - q', m);
  }

  function RunString(first: nat, last: nat): string {
    "," + Number(first) + if last > first then "-" + Number(last) else ""
  }

  /** What is left to print from a value on, when the run it is in extends to another. */
  ghost function Left(f: Field, prev: nat, i: nat): string
    requires prev < i <= |f.values|
  {
    Joined(Texts(RunsFrom(f, prev, i)))
  }

  ghost predicate Printing(f: Field, s: string, prev: nat, i: nat, value: bool) {
    prev < i <= |f.values| && value == f.values[prev] && s + Left(f, prev, i) == Left(f, 0, 1)
  }

  lemma NothingPrinted(f: Field)
    requires 0 < |f.values|
    ensures Printing(f, "", 0, 1, f.values[0])
  {
    hide Left;
  }

  lemma RunEnds(f: Field, s: string, prev: nat, i: nat, value: bool)
    requires i < |f.values| && Printing(f, s, prev, i, value)
    ensures if f.values[i] == value then Printing(f, s, prev, i + 1, value)
            else Printing(f, if value then s + RunString(prev + f.min, i + f.min - 1) else s, i, i + 1, !value)
  {
    LeftCases(f, prev, i);
    if value && !f.values[i] {
      var run := RunString(prev + f.min, i + f.min - 1);
      assert s + (run + Left(f, i, i + 1)) == (s + run) + Left(f, i, i + 1);
    }
    hide Left, RunString;
  }

  lemma LastRunEnds(f: Field, s: string, prev: nat, value: bool)
    requires Printing(f, s, prev, |f.values|, value)
    ensures Left(f, 0, 1) == if value then s + RunString(prev + f.min, |f.values| + f.min - 1) else s
  {
    LeftCases(f, prev, |f.values|);
    hide Left, RunString;
  }

  lemma LeftCases(f: Field, prev: nat, i: nat)
    requires prev < i <= |f.values|
    ensures Left(f, prev, i)
         == if i == |f.values| then if f.values[prev] then RunString(f.min + prev, f.min + i - 1) else ""
            else if f.values[i] == f.values[prev] then Left(f, prev, i + 1)
            else if f.values[prev] then RunString(f.min + prev, f.min + i - 1) + Left(f, i, i + 1)
            else Left(f, i, i + 1)
  {
    if i == |f.values| || f.values[i] != f.values[prev] {
      RunLeft(f, prev, i);
    }
    hide Joined, Texts, RunString;
  }

  lemma RunLeft(f: Field, prev: nat, i: nat)
    requires prev < i <= |f.values| && (i == |f.values| || f.values[i] != f.values[prev])
    ensures Left(f, prev, i)
         == (if f.values[prev] then RunString(f.min + prev, f.min + i - 1) else "")
            + (if i == |f.values| then "" else Left(f, i, i + 1))
  {
    var rest := if i == |f.values| then [] else RunsFrom(f, i, i + 1);
    hide Joined, Texts, Number, RunString;
    NoRuns();
    if f.values[prev] {
      FirstRun(Run(f.min + prev, f.min + i - 1), rest);
    }
    RunsLeft(f, prev, i);
    hide RunsFrom;
  }

  lemma RunsLeft(f: Field, prev: nat, i: nat)
    requires prev < i <= |f.values| && (i == |f.values| || f.values[i] != f.values[prev])
    ensures var rest := if i == |f.values| then [] else RunsFrom(f, i, i + 1);
            RunsFrom(f, prev, i) == if f.values[prev] then [Run(f.min + prev, f.min + i - 1)] + rest else rest
  {
  }

  lemma PrintCases(f: Field)
    requires 0 < |f.values|
    ensures var s := Left(f, 0, 1);
            Print(f) == if forall i :: 0 <= i < |f.values| ==> f.values[i] then "*"
                        else if s == "" then "ERROR" else s[1..]
  {
    hide Joined, Texts, RunsFrom;
  }

  lemma NoRuns()
    ensures Joined(Texts([])) == ""
  {
  }

  lemma FirstRun(r: Run, rest: seq<Run>)
    ensures Joined(Texts([r] + rest)) == RunString(r.first, r.last) + Joined(Texts(rest))
  {
    hide Number;
    assert Texts([r] + rest) == [RunText(r)] + Texts(rest);
    assert ([RunText(r)] + Texts(rest))[1..] == Texts(rest);
    assert "," + RunText(r) == RunString(r.first, r.last);
  }

  lemma StepsHaveDigits(text: string)
    requires forall k :: 0 <= k < |StepsOf(text)| ==> StepsOf(text)[k].Step?
    ensures AllSteps(StepsOf(text))
  {
  }

  class Trigger {
    const seconds: FieldArray
    const minutes: FieldArray
    const hours: FieldArray
    const days: FieldArray
    const months: FieldArray
    const daysofweek: FieldArray
    const calendar: Calendar
    var isValid: bool
    var lastTriggered: int
    var nextTriggering: int
    ghost var since: int

    function Fields(): Spec
      reads seconds.values, minutes.values, hours.values, days.values, months.values, daysofweek.values
    {
      Spec(seconds.F(), minutes.F(), hours.F(), days.F(), months.F(), daysofweek.F())
    }

    ghost function Arrays(): set<object> {
      {seconds.values, minutes.values, hours.values, days.values, months.values, daysofweek.values}
    }

    /** A cached date is the earliest match since the last triggering, or since the moment it was
        searched when nothing was triggered yet. */
    ghost predicate Valid()
      reads this, Arrays()
    {
      && seconds.Fits() && minutes.Fits() && hours.Fits() && days.Fits() && months.Fits() && daysofweek.Fits()
      && Shaped(Fields()) && -1 <= lastTriggered && -1 <= nextTriggering
      && (nextTriggering >= 0 ==> 0 <= since && Earliest(Fields(), calendar, since, nextTriggering))
      && (nextTriggering >= 0 && lastTriggered >= 0 ==> since == lastTriggered)
    }

    constructor (texts: seq<string>, calendar: Calendar)
      requires |texts| == 6
      ensures Valid() && lastTriggered == -1 && nextTriggering == -1 && this.calendar == calendar
      ensures Fields() == Parsed(texts)
      ensures isValid <==> Recognized(texts) && NeverNull(Parsed(texts))
      ensures fresh(Arrays())
    {
      hide BlankField, FieldArray.F, Parsed, Recognized, Earliest, IsNull;
      seconds := new FieldArray(0, 59);
      minutes := new FieldArray(0, 59);
      hours := new FieldArray(0, 23);
      days := new FieldArray(1, 31);
      months := new FieldArray(1, 12);
      daysofweek := new FieldArray(0, 6);
      this.calendar := calendar;
      isValid, lastTriggered, nextTriggering := false, -1, -1;
      new;
      assert Fields() == NOTHING && Pristine();
      hide *;
      ParseCronExpression(texts);
    }

    method ParseCronExpression(texts: seq<string>)
      requires Fields() == NOTHING && Pristine()
      modifies this, Arrays()
      ensures Valid() && lastTriggered == -1 && nextTriggering == -1 && Fields() == Parsed(texts)
      ensures isValid <==> Recognized(texts) && NeverNull(Parsed(texts))
    {
      hide AllSteps, StepsOf, SetSteps, Earliest;
      if Recognized(texts) {
        ParseAll(texts);
        isValid := !HasNull(Fields());
      }
    }

    ghost predicate Pristine()
      reads this
    {
      && seconds.Fits() && minutes.Fits() && hours.Fits() && days.Fits() && months.Fits() && daysofweek.Fits()
      && Separate() && !isValid && lastTriggered == -1 && nextTriggering == -1
    }

    static predicate HasNull(c: Spec) {
      IsNull(c.seconds) || IsNull(c.minutes) || IsNull(c.hours) || IsNull(c.days) || IsNull(c.months)
      || IsNull(c.daysofweek)
    }

    method ParseAll(texts: seq<string>)
      requires Recognized(texts) && Fields() == NOTHING && Pristine()
      modifies Arrays()
      ensures Fields() == Parsed(texts)
    {
      hide AllSteps, StepsOf, SetSteps;
      var ok := seconds.Parse(texts[0], false);
      ok := minutes.Parse(texts[1], false);
      ok := hours.Parse(texts[2], false);
      ok := days.Parse(texts[3], false);
      ok := months.Parse(texts[4], false);
      ok := daysofweek.Parse(texts[5], true);
    }

    ghost predicate Separate() {
      && minutes.values != seconds.values
      && hours.values !in {seconds.values, minutes.values}
      && days.values !in {seconds.values, minutes.values, hours.values}
      && months.values !in {seconds.values, minutes.values, hours.values, days.values}
      && daysofweek.values !in {seconds.values, minutes.values, hours.values, days.values, months.values}
    }

    method CanonicalExpression() returns (s: string)
      requires Valid()
      ensures s == Canonical(Fields())
    {
      var a := seconds.ToString();
      var b := minutes.ToString();
      var c := hours.ToString();
      var d := days.ToString();
      var e := months.ToString();
      var f := daysofweek.ToString();
      s := a + " " + (b + " " + (c + " " + (d + " " + (e + " " + f))));
    }

    method SetLastTriggered(date: int)
      requires Valid() && -1 <= date
      modifies this
      ensures Valid() && lastTriggered == date && nextTriggering == -1 && isValid == old(isValid)
    {
      lastTriggered := date;
      nextTriggering := -1;
    }

    predicate IsTriggering(t: nat)
      reads this, Arrays()
      requires Valid()
      ensures IsTriggering(t) == Matches(Fields(), calendar, t)
    {
      var date := DateOf(t / 86400);
      && IsSet(months.F(), date.month)
      && IsSet(days.F(), date.day) && IsSet(daysofweek.F(), DayOfWeek(t / 86400)) && calendar(date)
      && IsSet(hours.F(), t / 3600 % 24)
      && IsSet(minutes.F(), t / 60 % 60)
      && IsSet(seconds.F(), t % 60)
    }

    /** The cached date, or the earliest match up to a maximum; -1 when there is none. */
    method Next(max: int, now: nat) returns (date: int)
      requires Valid()
      modifies this
      ensures Valid() && isValid == old(isValid) && lastTriggered == old(lastTriggered)
      ensures !isValid ==> date == -1 && nextTriggering == old(nextTriggering)
      ensures isValid && old(nextTriggering) >= 0 ==> date == old(nextTriggering) == nextTriggering
      ensures isValid && old(nextTriggering) < 0 ==>
                var last := if lastTriggered >= 0 then lastTriggered else now;
                && nextTriggering == date && -1 <= date && (date >= 0 ==> date <= max)
                && (date == -1 ==> NoMatch(Fields(), calendar, last, max))
                && (date >= 0 ==> Earliest(Fields(), calendar, last, date))
                && date == FirstMatch(Fields(), calendar, last / 1000 + 1, max)
      ensures date >= 0 ==> date % 1000 == 0 && HoldsAt(Fields(), calendar, date / 1000)
    {
      hide FirstMatch, Earliest, NoMatch, Shaped, HoldsAt;
      if !isValid {
        return -1;
      }
      if nextTriggering >= 0 {
        EarliestHasTime(Fields(), calendar, since, nextTriggering);
        return nextTriggering;
      }
      var last := if lastTriggered >= 0 then lastTriggered else now;
      var t := Search(last, max);
      SearchIsFirstMatch(Fields(), calendar, last, max, if t < 0 then -1 else 1000 * t);
      if t < 0 {
        return -1;
      }
      nextTriggering := 1000 * t;
      since := last;
      EarliestHasTime(Fields(), calendar, since, nextTriggering);
      date := nextTriggering;
    }

    /** From the second after the last triggering, skipping months, days, hours, minutes and seconds
        that do not match. */
    method Search(last: nat, max: int) returns (r: int)
      requires Valid()
      ensures r == -1 ==> NoMatch(Fields(), calendar, last, max)
      ensures r != -1 ==> 0 <= r && 1000 * r <= max && Earliest(Fields(), calendar, last, 1000 * r)
    {
      hide NoneBetween, DateOf;
      var first := last / 1000 + 1;
      var t := first;
      NothingYet(Fields(), calendar, first);
      while 1000 * t <= max
        invariant first <= t && NoneBetween(Fields(), calendar, first, t)
        decreases max - 1000 * t
      {
        var n := t / 86400;
        var date := DateOf(n);
        var u;
        if !IsSet(months.F(), date.month) {
          SkipMonth(Fields(), calendar, t);
          u := DayNumber(NextMonth(date)) * 86400;
        } else if !IsSet(days.F(), date.day) || !IsSet(daysofweek.F(), DayOfWeek(n)) || !calendar(date) {
          SkipDay(Fields(), calendar, t);
          u := (n + 1) * 86400;
        } else if !IsSet(hours.F(), t / 3600 % 24) {
          SkipHour(Fields(), calendar, t);
          u := (t / 3600 + 1) * 3600;
        } else if !IsSet(minutes.F(), t / 60 % 60) {
          SkipMinute(Fields(), calendar, t);
          u := (t / 60 + 1) * 60;
        } else if !IsSet(seconds.F(), t % 60) {
          SkipSecond(Fields(), calendar, t);
          u := t + 1;
        } else {
          Found(Fields(), calendar, last, t);
          return t;
        }
        NoneFurther(Fields(), calendar, first, t, u);
        t := u;
      }
      NotFound(Fields(), calendar, last, t, max);
      r := -1;
    }
  }

  lemma NothingYet(c: Spec, included: Calendar, t: nat)
    ensures NoneBetween(c, included, t, t)
  {
  }

  lemma SkipSecond(c: Spec, included: Calendar, t: nat)
    requires !IsSet(c.seconds, t % 60)
    ensures NoneBetween(c, included, t, t + 1)
  {
    hide DateOf, DayMatches;
  }

  lemma Found(c: Spec, included: Calendar, last: nat, t: nat)
    requires Matches(c, included, t) && last / 1000 + 1 <= t && NoneBetween(c, included, last / 1000 + 1, t)
    ensures Earliest(c, included, last, 1000 * t)
  {
    hide Matches, NoneBetween;
    assert 1000 * t / 1000 == t;
  }

  lemma NotFound(c: Spec, included: Calendar, last: nat, t: nat, max: int)
    requires NoneBetween(c, included, last / 1000 + 1, t) && max < 1000 * t
    ensures NoMatch(c, included, last, max)
  {
    hide Matches;
    forall u: nat | last < 1000 * u <= max ensures !Matches(c, included, u) {
      assert last / 1000 + 1 <= u < t;
    }
  }
}
