/** What a cron expression means: the moments of the calendar that its six texts name. */
module CronMeaning {
  import opened CivilDate
  import opened CronText
  import opened CronField
  import opened CronSearch

  // ---------------------------------------------------------------------------------------------
  // What a step names
  // ---------------------------------------------------------------------------------------------

  /** The number of digits, or none. */
  predicate Absent(digits: string)
    requires Digits(digits)
  {
    digits == "" || ValueOf(digits) > INT_MAX
  }

  /** A value is one of those a step names, between two bounds: from its first number to its last one,
      every so many. A step without a last number names its first one only, or with a modulo all from
      there on; one without a first number starts from the lower bound. Days of the week are taken modulo
      seven. */
  predicate Names(step: Step, min: int, max: int, weekday: bool, v: int)
    requires IsStep(step)
  {
    var first := if Absent(step.start) then min
                 else if weekday then ValueOf(step.start) % 7 else ValueOf(step.start);
    var last := if !Absent(step.stop) then (if weekday then ValueOf(step.stop) % 7 else ValueOf(step.stop))
                else if step.modulo == "" && !Absent(step.start) then first
                else max;
    var every := if Absent(step.modulo) || ValueOf(step.modulo) == 0 then 1 else ValueOf(step.modulo);
    min <= first <= v <= last <= max && (v - first) % every == 0
  }

  lemma StepNames(f: Field, step: Step, weekday: bool, v: int)
    requires IsStep(step) && f.min <= v < f.min + |f.values| && (weekday ==> f.min == 0)
    ensures IsSet(SetStep(f, step, weekday), v)
       <==> IsSet(f, v) || Names(step, f.min, f.min + |f.values| - 1, weekday, v)
  {
    StepNumbers(step, weekday);
    StepIs(f, step, weekday);
    hide SetStep, Start, Stop, ToInt, Absent, IsStep, Digits;
  }

  /** The numbers of a step; minus one stands for a bound. */
  lemma StepNumbers(step: Step, weekday: bool)
    requires IsStep(step)
    ensures Start(step, weekday) == if Absent(step.start) then -1
                                    else if weekday then ValueOf(step.start) % 7 else ValueOf(step.start)
    ensures Stop(step, weekday) == if !Absent(step.stop) then
                                     (if weekday then ValueOf(step.stop) % 7 else ValueOf(step.stop))
                                   else if step.modulo == "" then Start(step, weekday)
                                   else -1
    ensures ToInt(step.modulo) == if Absent(step.modulo) then -1 else ValueOf(step.modulo)
  {
    assert Remainder(-1, 7) == -1;
    hide Digits, ValueOf;
  }

  lemma StepIs(f: Field, step: Step, weekday: bool)
    requires IsStep(step)
    ensures var modulo := if ToInt(step.modulo) == -1 then 0 else ToInt(step.modulo);
            SetStep(f, step, weekday) == Set(f, Start(step, weekday), Stop(step, weekday), modulo)
  {
    hide Set, Start, Stop, ToInt;
  }

  /** Some step of a list names a value. */
  ghost predicate SomeNames(steps: seq<Step>, min: int, max: int, weekday: bool, v: int)
    requires AllSteps(steps)
  {
    exists s <- steps :: Names(s, min, max, weekday, v)
  }

  lemma FirstNames(steps: seq<Step>, min: int, max: int, weekday: bool, v: int)
    requires AllSteps(steps) && steps != []
    ensures IsStep(steps[0]) && AllSteps(steps[1..])
    ensures SomeNames(steps, min, max, weekday, v)
       <==> Names(steps[0], min, max, weekday, v) || SomeNames(steps[1..], min, max, weekday, v)
  {
    assert steps[0] in steps && (forall s <- steps[1..] :: s in steps);
    assert forall s <- steps :: s == steps[0] || s in steps[1..];
    hide Names, IsStep;
  }

  lemma SetFirst(f: Field, steps: seq<Step>, weekday: bool)
    requires AllSteps(steps) && steps != []
    ensures IsStep(steps[0]) && AllSteps(steps[1..])
    ensures SetSteps(f, steps, weekday) == SetSteps(SetStep(f, steps[0], weekday), steps[1..], weekday)
  {
    assert steps[0] in steps && (forall s <- steps[1..] :: s in steps);
    hide SetStep, IsStep;
  }

  lemma NoSteps(f: Field, steps: seq<Step>, weekday: bool, v: int)
    requires AllSteps(steps) && steps == []
    ensures SetSteps(f, steps, weekday) == f && !SomeNames(steps, f.min, f.min + |f.values| - 1, weekday, v)
  {
  }

  /** A list of steps sets what one of them names. */
  lemma {:induction false} StepsName(f: Field, steps: seq<Step>, weekday: bool, v: int)
    requires AllSteps(steps) && f.min <= v < f.min + |f.values| && (weekday ==> f.min == 0)
    ensures IsSet(SetSteps(f, steps, weekday), v)
       <==> IsSet(f, v) || SomeNames(steps, f.min, f.min + |f.values| - 1, weekday, v)
    decreases |steps|
  {
    hide *;
    if steps == [] {
      NoSteps(f, steps, weekday, v);
    } else {
      FirstNames(steps, f.min, f.min + |f.values| - 1, weekday, v);
      SetFirst(f, steps, weekday);
      StepNames(f, steps[0], weekday, v);
      StepsName(SetStep(f, steps[0], weekday), steps[1..], weekday, v);
    }
  }

  // ---------------------------------------------------------------------------------------------
  // How steps are written
  // ---------------------------------------------------------------------------------------------

  /** A number, or none. */
  datatype Part = Nothing | Num(n: nat)

  function Digit(p: Part): string {
    if p.Num? then Number(p.n) else ""
  }

  /** A first number, a dash and a last one, a slash and a modulo, each of them or not; a star may stand
      for the first two. */
  function Written(star: bool, first: Part, last: Part, every: Part): string {
    (if star then "*" else Digit(first) + if last.Num? then "-" + Digit(last) else "")
    + if every.Num? then "/" + Digit(every) else ""
  }

  lemma DigitIs(p: Part)
    ensures Digits(Digit(p)) && (p.Num? <==> Digit(p) != "")
  {
  }

  lemma ModuloParses(start: string, stop: string, every: Part)
    requires Digits(start) && Digits(stop)
    ensures WithModulo(start, stop, if every.Num? then "/" + Digit(every) else "") == Step(start, stop, Digit(every))
  {
    DigitIs(every);
    if every.Num? {
      assert ("/" + Digit(every))[1..] == Digit(every);
    }
  }

  lemma StarParses(every: Part)
    ensures StepOf(Written(true, Nothing, Nothing, every)) == Step("", "", Digit(every))
  {
    var rest := if every.Num? then "/" + Digit(every) else "";
    ModuloParses("", "", every);
    assert ("*" + rest)[1..] == rest;
    hide Digit, WithModulo;
  }

  lemma ShortStep(a: string, rest: string)
    requires Digits(a) && (rest != "" ==> rest[0] == '/')
    ensures StepOf(a + rest) == WithModulo(a, "", rest)
  {
    var s := a + rest;
    LeadingDigitsOf(a, rest);
    assert s[..|a|] == a && s[|a|..] == rest;
    NotAStar(a, rest);
    hide WithModulo, LeadingDigits, Digits;
  }

  lemma LongStep(a: string, b: string, rest: string)
    requires Digits(a) && Digits(b) && b != "" && (rest != "" ==> rest[0] == '/')
    ensures StepOf(a + ("-" + (b + rest))) == WithModulo(a, b, rest)
  {
    var t := "-" + (b + rest);
    var s := a + t;
    LeadingDigitsOf(a, t);
    LeadingDigitsOf(b, rest);
    NotAStar(a, t);
    assert s[..|a|] == a && s[|a|..] == t && t[1..] == b + rest;
    assert (b + rest)[..|b|] == b && (b + rest)[|b|..] == rest;
    hide WithModulo, LeadingDigits, Digits;
  }

  lemma NumbersParse(first: Part, last: Part, every: Part)
    ensures StepOf(Written(false, first, last, every)) == Step(Digit(first), Digit(last), Digit(every))
  {
    var a, b := Digit(first), Digit(last);
    var rest := if every.Num? then "/" + Digit(every) else "";
    DigitIs(first);
    DigitIs(last);
    ModuloParses(a, b, every);
    assert last.Num? ==> Written(false, first, last, every) == a + ("-" + (b + rest)) by { hide Digit; }
    assert last.Nothing? ==> Written(false, first, last, every) == a + rest && b == "" by { assert a + "" == a; }
    hide *;
    if last.Num? {
      LongStep(a, b, rest);
    } else {
      ShortStep(a, rest);
    }
  }

  lemma NotAStar(digits: string, rest: string)
    requires Digits(digits) && (rest != "" ==> rest[0] != '*')
    ensures digits + rest != "" ==> (digits + rest)[0] != '*'
  {
    if digits != "" {
      assert IsDigit(digits[0]) && (digits + rest)[0] == digits[0];
    } else {
      assert digits + rest == rest;
    }
  }

  lemma PlainDigits(p: Part)
    ensures Plain(Digit(p))
  {
    var s := Digit(p);
    DigitIs(p);
    assert forall i :: 0 <= i < |s| ==> IsDigit(s[i]);
  }

  lemma PlainWritten(star: bool, first: Part, last: Part, every: Part)
    ensures Plain(Written(star, first, last, every))
  {
    PlainDigits(first);
    PlainDigits(last);
    PlainDigits(every);
    hide Digit;
  }

  /** A step as it is written names what its numbers say. */
  lemma WrittenStep(star: bool, first: Part, last: Part, every: Part)
    ensures var a, b := if star then Nothing else first, if star then Nothing else last;
            StepsOf(Written(star, first, last, every)) == [Step(Digit(a), Digit(b), Digit(every))]
  {
    var s := Written(star, first, last, every);
    PlainWritten(star, first, last, every);
    assert ',' !in s by { hide Written, Digit; }
    hide Written, Digit, StepOf, Trim, Split, Plain;
    SplitFirst(s, "", ',');
    TrimPlain(s);
    if star {
      StarIsAlone(first, last, every);
      StarParses(every);
    } else {
      NumbersParse(first, last, every);
    }
    NoDigits();
  }

  lemma StarIsAlone(first: Part, last: Part, every: Part)
    ensures Written(true, first, last, every) == Written(true, Nothing, Nothing, every)
  {
    hide Digit;
  }

  lemma NoDigits()
    ensures Digit(Nothing) == ""
  {
  }

  lemma NumberIsThere(p: Part)
    requires p.Num? ==> p.n <= INT_MAX
    ensures Digits(Digit(p)) && (Absent(Digit(p)) <==> p.Nothing?) && (p.Num? ==> ValueOf(Digit(p)) == p.n)
    ensures Digit(p) == "" <==> p.Nothing?
  {
    DigitIs(p);
    if p.Num? {
      NumberHasValue(p.n);
    }
    hide Number, ValueOf;
  }

  /** What a field set from one written step holds: "a" is a alone; "a-b" is a to b; "a/n" is a and every
      n-th value from there on; "*" is all and a star or nothing before a dash or a slash is the lower
      bound. */
  lemma WrittenMeans(f: Field, star: bool, first: Part, last: Part, every: Part, weekday: bool, v: int)
    requires f.min <= v < f.min + |f.values| && (weekday ==> f.min == 0)
    requires (first.Num? ==> first.n <= INT_MAX) && (last.Num? ==> last.n <= INT_MAX)
    requires every.Num? ==> every.n <= INT_MAX
    ensures AllSteps(StepsOf(Written(star, first, last, every)))
    ensures var max := f.min + |f.values| - 1;
            var a := if star || first.Nothing? then f.min else if weekday then first.n % 7 else first.n;
            var b := if !star && last.Num? then (if weekday then last.n % 7 else last.n)
                     else if !star && first.Num? && every.Nothing? then a
                     else max;
            var n := if every.Num? && every.n > 0 then every.n else 1;
            IsSet(SetSteps(Blank(f), StepsOf(Written(star, first, last, every)), weekday), v)
            <==> f.min <= a <= v <= b <= max && (v - a) % n == 0
  {
    hide *;
    var x, y := if star then Nothing else first, if star then Nothing else last;
    var step := Step(Digit(x), Digit(y), Digit(every));
    WrittenStep(star, first, last, every);
    PartsName(x, y, every, f.min, f.min + |f.values| - 1, weekday, v);
    BlankIsUnset(f, v);
    OneStep(step);
    StepsName(Blank(f), [step], weekday, v);
    FirstNames([step], f.min, f.min + |f.values| - 1, weekday, v);
    assert [step][1..] == [];
    NoSteps(f, [], weekday, v);
  }

  lemma OneStep(step: Step)
    requires IsStep(step)
    ensures AllSteps([step]) && AllSteps([])
  {
  }

  lemma BlankIsUnset(f: Field, v: int)
    ensures !IsSet(Blank(f), v) && Blank(f).min == f.min && |Blank(f).values| == |f.values|
  {
  }

  lemma PartsName(first: Part, last: Part, every: Part, min: int, max: int, weekday: bool, v: int)
    requires (first.Num? ==> first.n <= INT_MAX) && (last.Num? ==> last.n <= INT_MAX)
    requires every.Num? ==> every.n <= INT_MAX
    ensures var step := Step(Digit(first), Digit(last), Digit(every));
            var a := if first.Nothing? then min else if weekday then first.n % 7 else first.n;
            var b := if last.Num? then (if weekday then last.n % 7 else last.n)
                     else if first.Num? && every.Nothing? then a
                     else max;
            var n := if every.Num? && every.n > 0 then every.n else 1;
            && IsStep(step)
            && (Names(step, min, max, weekday, v) <==> min <= a <= v <= b <= max && (v - a) % n == 0)
  {
    NumberIsThere(first);
    NumberIsThere(last);
    NumberIsThere(every);
    hide Digit, Absent, Digits, ValueOf;
  }

  // ---------------------------------------------------------------------------------------------
  // What an expression matches
  // ---------------------------------------------------------------------------------------------

  /** The second of a time of a date. */
  function SecondOf(d: Date, hour: nat, minute: nat, second: nat): nat
    requires Valid(d)
  {
    ((DayNumber(d) * 24 + hour) * 60 + minute) * 60 + second
  }

  /** A text of a field names a value. */
  ghost predicate TextNames(text: string, min: int, max: int, weekday: bool, v: int) {
    AllSteps(StepsOf(text)) && SomeNames(StepsOf(text), min, max, weekday, v)
  }

  /** Six texts name a time of a date: its second, minute, hour, day, month and day of the week, by the
      calendar; which must be included. */
  ghost predicate ExpressionNames(texts: seq<string>, included: Calendar, d: Date, hour: nat, minute: nat, second: nat)
    requires |texts| == 6
  {
    && TextNames(texts[0], 0, 59, false, second) && TextNames(texts[1], 0, 59, false, minute)
    && TextNames(texts[2], 0, 23, false, hour) && TextNames(texts[3], 1, 31, false, d.day)
    && TextNames(texts[4], 1, 12, false, d.month) && TextNames(texts[5], 0, 6, true, Zeller(d)) && included(d)
  }

  lemma FieldNames(text: string, min: nat, size: nat, weekday: bool, v: int)
    requires AllSteps(StepsOf(text)) && min <= v < min + size && (weekday ==> min == 0)
    ensures IsSet(SetSteps(BlankField(min, size), StepsOf(text), weekday), v)
       <==> TextNames(text, min, min + size - 1, weekday, v)
  {
    assert !IsSet(BlankField(min, size), v);
    hide IsSet, SetSteps, SomeNames, StepsOf;
    StepsName(BlankField(min, size), StepsOf(text), weekday, v);
  }

  lemma SplitSecond(n: nat, hour: nat, minute: nat, second: nat)
    requires hour < 24 && minute < 60 && second < 60
    ensures var t := ((n * 24 + hour) * 60 + minute) * 60 + second;
            t / 86400 == n && t / 3600 % 24 == hour && t / 60 % 60 == minute && t % 60 == second
  {
    var a := n * 24 + hour;
    var b := a * 60 + minute;
    var t := b * 60 + second;
    assert t / 60 == b && t % 60 == second;
    assert b / 60 == a && b % 60 == minute;
    assert a / 24 == n && a % 24 == hour;
    assert t / 3600 == t / 60 / 60 && t / 86400 == t / 3600 / 24;
  }

  lemma TimeOfSecond(t: nat, d: Date, hour: nat, minute: nat, second: nat)
    requires Valid(d) && hour < 24 && minute < 60 && second < 60 && t == SecondOf(d, hour, minute, second)
    ensures t / 86400 == DayNumber(d) && DateOf(t / 86400) == d && DayOfWeek(t / 86400) == Zeller(d)
    ensures t / 3600 % 24 == hour && t / 60 % 60 == minute && t % 60 == second
  {
    DateOfDayNumber(d);
    WeekdayOfDate(d);
    SplitSecond(DayNumber(d), hour, minute, second);
    assert t == ((DayNumber(d) * 24 + hour) * 60 + minute) * 60 + second;
    hide *;
  }

  /** Every second is one time of one date. */
  lemma SecondHasTime(t: nat)
    ensures var d := DateOf(t / 86400);
            Valid(d) && t == SecondOf(d, t / 3600 % 24, t / 60 % 60, t % 60)
  {
    DayNumberOfDate(t / 86400);
    JoinSecond(t);
    hide DayNumber, DateOf;
  }

  lemma JoinSecond(t: nat)
    ensures t == ((t / 86400 * 24 + t / 3600 % 24) * 60 + t / 60 % 60) * 60 + t % 60
  {
    var a := t / 60;
    var b := a / 60;
    assert a * 60 + t % 60 == t;
    assert b * 60 + a % 60 == a;
    assert b / 24 * 24 + b % 24 == b;
    hide *;
    SplitSecond(b / 24, b % 24, a % 60, t % 60);
  }

  /** An expression matches the seconds of exactly the times that its texts name. */
  lemma MatchesMeans(texts: seq<string>, included: Calendar, d: Date, hour: nat, minute: nat, second: nat)
    requires Recognized(texts) && Valid(d) && hour < 24 && minute < 60 && second < 60
    ensures Matches(Parsed(texts), included, SecondOf(d, hour, minute, second))
       <==> ExpressionNames(texts, included, d, hour, minute, second)
  {
    hide *;
    var t := SecondOf(d, hour, minute, second);
    TimeOfSecond(t, d, hour, minute, second);
    MatchesIs(Parsed(texts), included, t);
    ParsedIs(texts);
    InCalendar(d);
    FieldNames(texts[0], 0, 60, false, second);
    FieldNames(texts[1], 0, 60, false, minute);
    FieldNames(texts[2], 0, 24, false, hour);
    FieldNames(texts[3], 1, 31, false, d.day);
    FieldNames(texts[4], 1, 12, false, d.month);
    FieldNames(texts[5], 0, 7, true, Zeller(d));
    ExpressionIs(texts, included, d, hour, minute, second);
  }

  lemma ExpressionIs(texts: seq<string>, included: Calendar, d: Date, hour: nat, minute: nat, second: nat)
    requires |texts| == 6
    ensures ExpressionNames(texts, included, d, hour, minute, second)
       <==> && TextNames(texts[0], 0, 59, false, second) && TextNames(texts[1], 0, 59, false, minute)
            && TextNames(texts[2], 0, 23, false, hour) && TextNames(texts[3], 1, 31, false, d.day)
            && TextNames(texts[4], 1, 12, false, d.month) && TextNames(texts[5], 0, 6, true, Zeller(d))
            && included(d)
  {
    hide TextNames, Zeller;
  }

  lemma InCalendar(d: Date)
    requires Valid(d)
    ensures 0 <= Zeller(d) <= 6 && 1 <= d.day <= 31 && 1 <= d.month <= 12
  {
  }

  lemma MatchesIs(c: Spec, included: Calendar, t: nat)
    ensures var n := t / 86400;
            Matches(c, included, t)
            <==> && IsSet(c.seconds, t % 60) && IsSet(c.minutes, t / 60 % 60) && IsSet(c.hours, t / 3600 % 24)
                 && IsSet(c.days, DateOf(n).day) && IsSet(c.months, DateOf(n).month)
                 && IsSet(c.daysofweek, DayOfWeek(n)) && included(DateOf(n))
  {
    hide IsSet, DateOf, DayOfWeek;
  }

  lemma ParsedIs(texts: seq<string>)
    requires Recognized(texts)
    ensures |texts| == 6 && forall k :: 0 <= k < 6 ==> AllSteps(StepsOf(texts[k]))
    ensures var c := Parsed(texts);
            && c.seconds == SetSteps(BlankField(0, 60), StepsOf(texts[0]), false)
            && c.minutes == SetSteps(BlankField(0, 60), StepsOf(texts[1]), false)
            && c.hours == SetSteps(BlankField(0, 24), StepsOf(texts[2]), false)
            && c.days == SetSteps(BlankField(1, 31), StepsOf(texts[3]), false)
            && c.months == SetSteps(BlankField(1, 12), StepsOf(texts[4]), false)
            && c.daysofweek == SetSteps(BlankField(0, 7), StepsOf(texts[5]), true)
  {
    hide SetSteps, StepsOf, BlankField;
  }

  /** The fields hold the parts of a time of a date. */
  predicate FieldsHold(c: Spec, included: Calendar, d: Date, hour: nat, minute: nat, second: nat) {
    && IsSet(c.seconds, second) && IsSet(c.minutes, minute) && IsSet(c.hours, hour) && IsSet(c.days, d.day)
    && IsSet(c.months, d.month) && IsSet(c.daysofweek, Zeller(d)) && included(d)
  }

  /** A second is that of a time of a date that the fields hold. */
  ghost predicate HoldsAt(c: Spec, included: Calendar, t: nat) {
    exists d, hour: nat, minute: nat, second: nat ::
      && Valid(d) && hour < 24 && minute < 60 && second < 60 && t == SecondOf(d, hour, minute, second)
      && FieldsHold(c, included, d, hour, minute, second)
  }

  lemma MatchHasTime(c: Spec, included: Calendar, t: nat)
    requires Matches(c, included, t)
    ensures HoldsAt(c, included, t)
  {
    MatchesIs(c, included, t);
    SecondHasTime(t);
    WeekdayOfDay(t / 86400);
    assert FieldsHold(c, included, DateOf(t / 86400), t / 3600 % 24, t / 60 % 60, t % 60);
    hide *;
  }

  lemma TimeMatches(c: Spec, included: Calendar, d: Date, hour: nat, minute: nat, second: nat)
    requires Valid(d) && hour < 24 && minute < 60 && second < 60
    ensures Matches(c, included, SecondOf(d, hour, minute, second))
       <==> FieldsHold(c, included, d, hour, minute, second)
  {
    var t := SecondOf(d, hour, minute, second);
    TimeOfSecond(t, d, hour, minute, second);
    MatchesIs(c, included, t);
    hide SecondOf, Matches, IsSet, DateOf, DayOfWeek, Zeller, Valid;
  }

  /** A second matches exactly when it is that of a time of a date that the fields hold. */
  lemma MatchesExactly(c: Spec, included: Calendar, t: nat)
    ensures Matches(c, included, t) <==> HoldsAt(c, included, t)
  {
    if HoldsAt(c, included, t) {
      var d, hour: nat, minute: nat, second: nat :|
        && Valid(d) && hour < 24 && minute < 60 && second < 60 && t == SecondOf(d, hour, minute, second)
        && FieldsHold(c, included, d, hour, minute, second);
      TimeMatches(c, included, d, hour, minute, second);
    }
    if Matches(c, included, t) {
      MatchHasTime(c, included, t);
    }
    hide *;
  }

  lemma EarliestHasTime(c: Spec, included: Calendar, last: nat, date: nat)
    requires Earliest(c, included, last, date)
    ensures date % 1000 == 0 && HoldsAt(c, included, date / 1000)
  {
    MatchHasTime(c, included, date / 1000);
    hide HoldsAt, Matches, NoneBetween;
  }
}
