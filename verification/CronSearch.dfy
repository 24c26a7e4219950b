/** The seconds a cron trigger matches, in UTC, and what each skip of the search passes over. */
module CronSearch {
  import opened CivilDate
  import opened CronField
  import T = CronText

  datatype Spec = Spec(seconds: Field, minutes: Field, hours: Field, days: Field, months: Field, daysofweek: Field)

  predicate Shaped(c: Spec) {
    && c.seconds.min == 0 && |c.seconds.values| == 60 && c.minutes.min == 0 && |c.minutes.values| == 60
    && c.hours.min == 0 && |c.hours.values| == 24 && c.days.min == 1 && |c.days.values| == 31
    && c.months.min == 1 && |c.months.values| == 12 && c.daysofweek.min == 0 && |c.daysofweek.values| == 7
  }

  predicate NeverNull(c: Spec) {
    !IsNull(c.seconds) && !IsNull(c.minutes) && !IsNull(c.hours) && !IsNull(c.days) && !IsNull(c.months)
    && !IsNull(c.daysofweek)
  }

  type Calendar = Date -> bool

  predicate DayMatches(c: Spec, included: Calendar, n: nat) {
    && IsSet(c.days, DateOf(n).day) && IsSet(c.daysofweek, DayOfWeek(n)) && included(DateOf(n))
  }

  /** Whether a second since the epoch matches the expression. */
  predicate Matches(c: Spec, included: Calendar, t: nat) {
    && IsSet(c.months, DateOf(t / 86400).month) && DayMatches(c, included, t / 86400)
    && IsSet(c.hours, t / 3600 % 24) && IsSet(c.minutes, t / 60 % 60) && IsSet(c.seconds, t % 60)
  }

  // ---------------------------------------------------------------------------------------------
  // What the search skips
  // ---------------------------------------------------------------------------------------------

  ghost predicate NoneBetween(c: Spec, included: Calendar, from: nat, to: nat) {
    forall u: nat :: from <= u < to ==> !Matches(c, included, u)
  }

  lemma SkipMonth(c: Spec, included: Calendar, t: nat)
    requires !IsSet(c.months, DateOf(t / 86400).month)
    ensures var m := DayNumber(NextMonth(DateOf(t / 86400)));
            t < m * 86400 && NoneBetween(c, included, t, m * 86400)
  {
    FirstOfNextMonth(t / 86400);
    hide DateOf, DayMatches;
    var m := DayNumber(NextMonth(DateOf(t / 86400)));
    forall u: nat | t <= u < m * 86400 ensures !Matches(c, included, u) {
      assert t / 86400 <= u / 86400 < m;
    }
  }

  lemma SkipDay(c: Spec, included: Calendar, t: nat)
    requires !DayMatches(c, included, t / 86400)
    ensures t < (t / 86400 + 1) * 86400 && NoneBetween(c, included, t, (t / 86400 + 1) * 86400)
  {
    hide DateOf, DayMatches;
    forall u: nat | t <= u < (t / 86400 + 1) * 86400 ensures !Matches(c, included, u) {
      assert u / 86400 == t / 86400;
    }
  }

  lemma SkipHour(c: Spec, included: Calendar, t: nat)
    requires !IsSet(c.hours, t / 3600 % 24)
    ensures t < (t / 3600 + 1) * 3600 && NoneBetween(c, included, t, (t / 3600 + 1) * 3600)
  {
    hide DateOf, DayMatches;
    forall u: nat | t <= u < (t / 3600 + 1) * 3600 ensures !Matches(c, included, u) {
      assert u / 3600 == t / 3600;
    }
  }

  lemma SkipMinute(c: Spec, included: Calendar, t: nat)
    requires !IsSet(c.minutes, t / 60 % 60)
    ensures t < (t / 60 + 1) * 60 && NoneBetween(c, included, t, (t / 60 + 1) * 60)
  {
    hide DateOf, DayMatches;
    forall u: nat | t <= u < (t / 60 + 1) * 60 ensures !Matches(c, included, u) {
      assert u / 60 == t / 60;
    }
  }

  lemma NoneFurther(c: Spec, included: Calendar, from: nat, via: nat, to: nat)
    requires from <= via <= to && NoneBetween(c, included, from, via) && NoneBetween(c, included, via, to)
    ensures NoneBetween(c, included, from, to)
  {
    hide Matches;
  }

  // ---------------------------------------------------------------------------------------------
  // The canonical expression
  // ---------------------------------------------------------------------------------------------

  function Canonical(c: Spec): string
    requires Shaped(c)
  {
    Print(c.seconds) + " " + (Print(c.minutes) + " " + (Print(c.hours) + " " + (Print(c.days) + " "
    + (Print(c.months) + " " + Print(c.daysofweek)))))
  }

  /** The text before the first space and the text after it are unique. */
  lemma FirstFieldIsUnique(a: string, b: string, x: string, y: string)
    requires NoSpace(a) && NoSpace(b) && a + " " + x == b + " " + y
    ensures a == b && x == y
  {
    T.UntilEnd(a, " " + x, ' ');
    T.UntilEnd(b, " " + y, ' ');
    assert a + " " + x == a + (" " + x) && b + " " + y == b + (" " + y);
    assert (a + (" " + x))[..|a|] == a && (b + (" " + y))[..|b|] == b;
    assert (a + (" " + x))[|a|+1..] == x && (b + (" " + y))[|b|+1..] == y;
  }

  /** Two triggers have the same canonical expression exactly when all their fields hold the same
      values: it is the key that carries triggering dates over a reload. */
  lemma CanonicalIsNormal(c: Spec, d: Spec)
    requires Shaped(c) && Shaped(d)
    ensures Canonical(c) == Canonical(d) <==> c == d
  {
    if Canonical(c) == Canonical(d) {
      CanonicalFields(c, d);
      hide Print;
      PrintIsInjective(c.seconds, d.seconds);
      PrintIsInjective(c.minutes, d.minutes);
      PrintIsInjective(c.hours, d.hours);
      PrintIsInjective(c.days, d.days);
      PrintIsInjective(c.months, d.months);
      PrintIsInjective(c.daysofweek, d.daysofweek);
    }
  }

  lemma CanonicalFields(c: Spec, d: Spec)
    requires Shaped(c) && Shaped(d) && Canonical(c) == Canonical(d)
    ensures Print(c.seconds) == Print(d.seconds) && Print(c.minutes) == Print(d.minutes)
    ensures Print(c.hours) == Print(d.hours) && Print(c.days) == Print(d.days)
    ensures Print(c.months) == Print(d.months) && Print(c.daysofweek) == Print(d.daysofweek)
  {
    hide Print, NoSpace;
    PrintStarts(c.seconds);
    PrintStarts(d.seconds);
    PrintStarts(c.minutes);
    PrintStarts(d.minutes);
    PrintStarts(c.hours);
    PrintStarts(d.hours);
    PrintStarts(c.days);
    PrintStarts(d.days);
    PrintStarts(c.months);
    PrintStarts(d.months);
    var c1, d1 := Print(c.months) + " " + Print(c.daysofweek), Print(d.months) + " " + Print(d.daysofweek);
    var c2, d2 := Print(c.days) + " " + c1, Print(d.days) + " " + d1;
    var c3, d3 := Print(c.hours) + " " + c2, Print(d.hours) + " " + d2;
    var c4, d4 := Print(c.minutes) + " " + c3, Print(d.minutes) + " " + d3;
    FirstFieldIsUnique(Print(c.seconds), Print(d.seconds), c4, d4);
    FirstFieldIsUnique(Print(c.minutes), Print(d.minutes), c3, d3);
    FirstFieldIsUnique(Print(c.hours), Print(d.hours), c2, d2);
    FirstFieldIsUnique(Print(c.days), Print(d.days), c1, d1);
    FirstFieldIsUnique(Print(c.months), Print(d.months), Print(c.daysofweek), Print(d.daysofweek));
  }

  // ---------------------------------------------------------------------------------------------
  // Parsing the six fields of an expression
  // ---------------------------------------------------------------------------------------------

  function BlankField(min: nat, size: nat): Field {
    Field(min, seq(size, _ => false))
  }

  const NOTHING := Spec(BlankField(0, 60), BlankField(0, 60), BlankField(0, 24), BlankField(1, 31),
                        BlankField(1, 12), BlankField(0, 7))

  /** The expression is refused as a whole when one of its fields is not a list of steps. */
  predicate Recognized(texts: seq<string>) {
    |texts| == 6 && forall k :: 0 <= k < 6 ==> AllSteps(T.StepsOf(texts[k]))
  }

  function Parsed(texts: seq<string>): (c: Spec)
    ensures Shaped(c)
  {
    if !Recognized(texts) then NOTHING
    else Spec(SetSteps(NOTHING.seconds, T.StepsOf(texts[0]), false),
              SetSteps(NOTHING.minutes, T.StepsOf(texts[1]), false),
              SetSteps(NOTHING.hours, T.StepsOf(texts[2]), false), SetSteps(NOTHING.days, T.StepsOf(texts[3]), false),
              SetSteps(NOTHING.months, T.StepsOf(texts[4]), false),
              SetSteps(NOTHING.daysofweek, T.StepsOf(texts[5]), true))
  }

  /** Cut at its spaces, a canonical expression is the six printed fields. */
  lemma CanonicalIsCut(c: Spec)
    requires Shaped(c)
    ensures T.Split(Canonical(c), ' ')
         == [Print(c.seconds), Print(c.minutes), Print(c.hours), Print(c.days), Print(c.months), Print(c.daysofweek)]
  {
    hide Print, T.Split;
    var c1 := Print(c.months) + " " + Print(c.daysofweek);
    var c2 := Print(c.days) + " " + c1;
    var c3 := Print(c.hours) + " " + c2;
    var c4 := Print(c.minutes) + " " + c3;
    CutField(c.daysofweek, "");
    CutField(c.months, Print(c.daysofweek));
    CutField(c.days, c1);
    CutField(c.hours, c2);
    CutField(c.minutes, c3);
    CutField(c.seconds, c4);
  }

  lemma CutField(f: Field, rest: string)
    requires Sound(f)
    ensures T.Split(Print(f) + " " + rest, ' ') == [Print(f)] + T.Split(rest, ' ')
    ensures T.Split(Print(f), ' ') == [Print(f)]
  {
    PrintStarts(f);
    hide Print;
    T.SplitFirst(Print(f), rest, ' ');
  }

  /** A canonical expression, cut at its spaces and parsed, gives the fields it was printed from. */
  lemma CanonicalIsParsedBack(c: Spec)
    requires Shaped(c) && NeverNull(c)
    ensures Parsed(T.Split(Canonical(c), ' ')) == c
  {
    hide Print, SetSteps, T.StepsOf;
    CanonicalIsCut(c);
    ParsePrinted(c.seconds, false);
    ParsePrinted(c.minutes, false);
    ParsePrinted(c.hours, false);
    ParsePrinted(c.days, false);
    ParsePrinted(c.months, false);
    ParsePrinted(c.daysofweek, true);
    assert Blank(c.seconds) == NOTHING.seconds && Blank(c.minutes) == NOTHING.minutes;
    assert Blank(c.hours) == NOTHING.hours && Blank(c.days) == NOTHING.days;
    assert Blank(c.months) == NOTHING.months && Blank(c.daysofweek) == NOTHING.daysofweek;
    assert Parsed([Print(c.seconds), Print(c.minutes), Print(c.hours), Print(c.days), Print(c.months),
                   Print(c.daysofweek)]) == c by { hide Canonical; }
  }

  // ---------------------------------------------------------------------------------------------
  // The earliest match
  // ---------------------------------------------------------------------------------------------

  /** A date in milliseconds is the earliest whole second after another one that matches. */
  ghost predicate Earliest(c: Spec, included: Calendar, last: nat, date: nat) {
    && date % 1000 == 0 && last < date && Matches(c, included, date / 1000)
    && NoneBetween(c, included, last / 1000 + 1, date / 1000)
  }

  ghost predicate NoMatch(c: Spec, included: Calendar, last: nat, max: int) {
    forall t: nat :: last < 1000 * t <= max ==> !Matches(c, included, t)
  }

  lemma EarliestIsUnique(c: Spec, included: Calendar, last: nat, a: nat, b: nat)
    requires Earliest(c, included, last, a) && Earliest(c, included, last, b)
    ensures a == b
  {
    hide Matches;
    assert last / 1000 + 1 <= a / 1000 && last / 1000 + 1 <= b / 1000;
  }

  /** No second up to a maximum matches exactly when the earliest match, if any, is beyond it. */
  lemma EarliestOrNone(c: Spec, included: Calendar, last: nat, date: nat, max: int)
    requires Earliest(c, included, last, date)
    ensures NoMatch(c, included, last, max) <==> max < date
  {
    hide Matches;
    if max < date {
      forall t: nat | last < 1000 * t <= max ensures !Matches(c, included, t) {
        assert last / 1000 + 1 <= t < date / 1000;
      }
    } else {
      var t := date / 1000;
      assert last < 1000 * t <= max && Matches(c, included, t);
    }
  }

  /** The search second by second, in milliseconds; -1 when nothing matches up to the maximum. */
  function FirstMatch(c: Spec, included: Calendar, t: nat, max: int): (r: int)
    ensures -1 <= r
    decreases max - 1000 * t
  {
    if 1000 * t > max then -1
    else if Matches(c, included, t) then 1000 * t
    else FirstMatch(c, included, t + 1, max)
  }

  /** Any way to find the earliest match, or that there is none, agrees with the search second by
      second. */
  lemma {:induction false} FirstMatchIsEarliest(c: Spec, included: Calendar, last: nat, t: nat, max: int)
    requires last / 1000 + 1 <= t && NoneBetween(c, included, last / 1000 + 1, t)
    ensures var r := FirstMatch(c, included, t, max);
            if r == -1 then NoMatch(c, included, last, max) else r <= max && Earliest(c, included, last, r)
    decreases max - 1000 * t
  {
    hide Matches;
    if 1000 * t > max {
      forall u: nat | last < 1000 * u <= max ensures !Matches(c, included, u) {
        assert last / 1000 + 1 <= u < t;
      }
    } else if Matches(c, included, t) {
      assert 1000 * t / 1000 == t;
    } else {
      FirstMatchIsEarliest(c, included, last, t + 1, max);
    }
  }

  /** The skipping search finds what the search second by second finds. */
  lemma SearchIsFirstMatch(c: Spec, included: Calendar, last: nat, max: int, r: int)
    requires if r == -1 then NoMatch(c, included, last, max)
             else 0 <= r <= max && Earliest(c, included, last, r)
    ensures r == FirstMatch(c, included, last / 1000 + 1, max)
  {
    hide FirstMatch, Earliest, NoMatch;
    assert NoneBetween(c, included, last / 1000 + 1, last / 1000 + 1);
    FirstMatchIsEarliest(c, included, last, last / 1000 + 1, max);
    var first := FirstMatch(c, included, last / 1000 + 1, max);
    if r != -1 && first != -1 {
      EarliestIsUnique(c, included, last, r, first);
    } else if r != -1 {
      EarliestOrNone(c, included, last, r, max);
    } else if first != -1 {
      EarliestOrNone(c, included, last, first, max);
    }
  }
}
