/** A field of a cron expression: a set of values between two bounds, its text and its parsing. */
module CronField {
  import opened CronText

  /** The value min + i is set when values[i] is true. */
  datatype Field = Field(min: nat, values: seq<bool>)

  predicate Sound(f: Field) {
    0 < |f.values| && f.min + |f.values| <= 100
  }

  predicate IsSet(f: Field, v: int) {
    f.min <= v < f.min + |f.values| && f.values[v - f.min]
  }

  predicate IsNull(f: Field) {
    forall i :: 0 <= i < |f.values| ==> !f.values[i]
  }

  function Blank(f: Field): Field {
    f.(values := seq(|f.values|, _ => false))
  }

  // ---------------------------------------------------------------------------------------------
  // Setting values
  // ---------------------------------------------------------------------------------------------

  predicate Hit(start: int, stop: int, modulo: int, v: int)
    requires 0 < modulo
  {
    start <= v <= stop && (v - start) % modulo == 0
  }

  /** The values from start to stop by steps of modulo; -1 stands for the bounds, and bounds out of
      range set nothing. */
  function Set(f: Field, start: int, stop: int, modulo: int): (r: Field)
    ensures r.min == f.min && |r.values| == |f.values|
  {
    var max := f.min + |f.values| - 1;
    var a := if start == -1 then f.min else start;
    var b := if stop == -1 then max else stop;
    var m := if modulo < 1 then 1 else modulo;
    if f.min <= a <= max && f.min <= b <= max then
      f.(values := seq(|f.values|, i requires 0 <= i < |f.values| => f.values[i] || Hit(a, b, m, f.min + i)))
    else f
  }

  /** The remainder of a signed division that truncates. */
  function Remainder(a: int, b: int): int
    requires 0 < b
  {
    if a >= 0 then a % b else -(-a % b)
  }

  predicate IsStep(step: Step) {
    step.Step? && Digits(step.start) && Digits(step.stop) && Digits(step.modulo)
  }

  /** The numbers of a step; those of days of the week are reduced, each on its own. */
  function Start(step: Step, weekday: bool): int
    requires IsStep(step)
  {
    if weekday then Remainder(ToInt(step.start), 7) else ToInt(step.start)
  }

  function Stop(step: Step, weekday: bool): int
    requires IsStep(step)
  {
    var stop := if ToInt(step.stop) == -1 then (if step.modulo == "" then ToInt(step.start) else -1)
                else ToInt(step.stop);
    if weekday then Remainder(stop, 7) else stop
  }

  function SetStep(f: Field, step: Step, weekday: bool): (r: Field)
    requires IsStep(step)
    ensures r.min == f.min && |r.values| == |f.values|
  {
    var modulo := if ToInt(step.modulo) == -1 then 0 else ToInt(step.modulo);
    Set(f, Start(step, weekday), Stop(step, weekday), modulo)
  }

  predicate AllSteps(steps: seq<Step>) {
    forall s <- steps :: IsStep(s)
  }

  function SetSteps(f: Field, steps: seq<Step>, weekday: bool): (r: Field)
    requires AllSteps(steps)
    ensures r.min == f.min && |r.values| == |f.values|
    decreases |steps|
  {
    if steps == [] then f
    else
      assert steps[0] in steps;
      SetSteps(SetStep(f, steps[0], weekday), steps[1..], weekday)
  }

  // ---------------------------------------------------------------------------------------------
  // Printing
  // ---------------------------------------------------------------------------------------------

  datatype Run = Run(first: nat, last: nat)

  /** The runs of set values, when values prev to i - 1 are alike. */
  function RunsFrom(f: Field, prev: nat, i: nat): (r: seq<Run>)
    requires prev < i <= |f.values|
    ensures forall x <- r :: f.min <= x.first <= x.last < f.min + |f.values|
    decreases |f.values| - i
  {
    var here := if f.values[prev] then [Run(f.min + prev, f.min + i - 1)] else [];
    if i == |f.values| then here
    else if f.values[i] != f.values[prev] then here + RunsFrom(f, i, i + 1)
    else RunsFrom(f, prev, i + 1)
  }

  ghost predicate InRuns(runs: seq<Run>, v: int) {
    exists x <- runs :: x.first <= v <= x.last
  }

  function RunText(r: Run): string {
    Number(r.first) + if r.last > r.first then "-" + Number(r.last) else ""
  }

  function Texts(runs: seq<Run>): (t: seq<string>)
    ensures |t| == |runs| && forall k :: 0 <= k < |t| ==> t[k] == RunText(runs[k])
  {
    seq(|runs|, k requires 0 <= k < |runs| => RunText(runs[k]))
  }

  function Print(f: Field): string
    requires 0 < |f.values|
  {
    if forall i :: 0 <= i < |f.values| ==> f.values[i] then "*"
    else
      var s := Joined(Texts(RunsFrom(f, 0, 1)));
      if s == "" then "ERROR" else s[1..]
  }

  /** The runs hold exactly the values that are set from prev on. */
  lemma {:induction false} RunsCover(f: Field, prev: nat, i: nat, k: nat)
    requires prev < i <= |f.values| && prev <= k < |f.values|
    requires forall j :: prev <= j < i ==> f.values[j] == f.values[prev]
    ensures f.values[k] <==> InRuns(RunsFrom(f, prev, i), f.min + k)
    decreases |f.values| - i
  {
    var here := if f.values[prev] then [Run(f.min + prev, f.min + i - 1)] else [];
    var runs := RunsFrom(f, prev, i);
    if i == |f.values| {
      assert runs == here;
      if f.values[k] {
        assert here[0] in runs;
      }
    } else if f.values[i] != f.values[prev] {
      assert runs == here + RunsFrom(f, i, i + 1);
      LaterRuns(f, i, i + 1);
      if i <= k {
        RunsCover(f, i, i + 1, k);
      } else if f.values[k] {
        assert here[0] in runs;
      }
    } else {
      RunsCover(f, prev, i + 1, k);
    }
  }

  lemma {:induction false} LaterRuns(f: Field, prev: nat, i: nat)
    requires prev < i <= |f.values|
    ensures forall x <- RunsFrom(f, prev, i) :: f.min + prev <= x.first
    decreases |f.values| - i
  {
    if i < |f.values| {
      if f.values[i] != f.values[prev] {
        LaterRuns(f, i, i + 1);
      } else {
        LaterRuns(f, prev, i + 1);
      }
    }
  }

  // ---------------------------------------------------------------------------------------------
  // The printed text is parsed back
  // ---------------------------------------------------------------------------------------------

  lemma {:induction false} SmallNumber(n: nat)
    requires n < 100
    ensures ToInt(Number(n)) == n
  {
    NumberHasValue(n);
  }

  function RunStep(r: Run): Step {
    Step(Number(r.first), if r.last > r.first then Number(r.last) else "", "")
  }

  lemma RunTextParses(r: Run)
    ensures r.first <= r.last ==> Plain(RunText(r)) && StepOf(Trim(RunText(r))) == RunStep(r)
  {
    var a, b := Number(r.first), Number(r.last);
    if r.last > r.first {
      assert RunText(r) == a + "-" + b by { assert RunText(r) == a + ("-" + b); }
      hide Number, RunText, Trim, StepOf;
      assert Plain(a + "-" + b);
      TrimPlain(a + "-" + b);
      StepOfRange(a, b);
    } else {
      assert RunText(r) == a;
      hide Number, RunText, Trim, StepOf;
      TrimPlain(a);
      StepOfNumber(a);
    }
  }

  lemma RunStepSets(r: Run, f: Field, weekday: bool)
    requires r.first <= r.last < 100 && (weekday ==> r.last < 7)
    ensures SetStep(f, RunStep(r), weekday) == Set(f, r.first, r.last, 0)
  {
    SmallNumber(r.first);
    SmallNumber(r.last);
    assert ToInt("") == -1;
    hide Number, ToInt, Set;
  }

  ghost predicate Small(runs: seq<Run>, f: Field, weekday: bool) {
    && Sound(f) && (weekday ==> f.min + |f.values| <= 7)
    && forall x <- runs :: f.min <= x.first <= x.last < f.min + |f.values|
  }

  lemma RunsParse(runs: seq<Run>, f: Field, weekday: bool)
    requires Small(runs, f, weekday)
    ensures forall k :: 0 <= k < |runs| ==> Plain(Texts(runs)[k])
    ensures forall k :: 0 <= k < |runs| ==> Steps(Texts(runs))[k] == RunStep(runs[k])
    ensures AllSteps(Steps(Texts(runs)))
  {
    hide RunText, Plain, StepOf, Trim, Number;
    forall k | 0 <= k < |runs| ensures Plain(Texts(runs)[k]) && Steps(Texts(runs))[k] == RunStep(runs[k]) {
      assert runs[k] in runs;
      RunTextParses(runs[k]);
    }
  }

  ghost predicate StepsAre(steps: seq<Step>, runs: seq<Run>) {
    && |steps| == |runs| && AllSteps(steps)
    && forall k :: 0 <= k < |runs| ==> steps[k] == RunStep(runs[k])
  }

  lemma {:induction false} SetRuns(runs: seq<Run>, steps: seq<Step>, f: Field, weekday: bool, i: nat)
    requires Small(runs, f, weekday) && i < |f.values|
    requires StepsAre(steps, runs)
    ensures SetSteps(f, steps, weekday).values[i]
       <==> f.values[i] || InRuns(runs, f.min + i)
    decreases |runs|
  {
    hide RunStep, SetStep, Digits;
    if runs != [] {
      assert runs[0] in runs && steps[0] in steps;
      assert forall x <- runs[1..] :: x in runs;
      assert forall s <- steps[1..] :: s in steps;
      RunStepSets(runs[0], f, weekday);
      var g := SetStep(f, steps[0], weekday);
      assert g.values[i] == (f.values[i] || Hit(runs[0].first, runs[0].last, 1, f.min + i));
      SetRuns(runs[1..], steps[1..], g, weekday, i);
      assert runs == [runs[0]] + runs[1..];
    }
  }

  lemma RunsAreSmall(f: Field, weekday: bool)
    requires Sound(f) && (weekday ==> f.min + |f.values| <= 7)
    ensures Small(RunsFrom(f, 0, 1), f, weekday)
  {
  }

  lemma StarSetsAll(f: Field, weekday: bool)
    requires Sound(f)
    ensures AllSteps(StepsOf("*"))
    ensures forall i :: 0 <= i < |f.values| ==> SetSteps(f, StepsOf("*"), weekday).values[i]
  {
    assert Split("*", ',') == ["*"];
    TrimPlain("*");
    var step := Step("", "", "");
    assert StepsOf("*") == [step];
    assert SetSteps(f, [step], weekday) == SetStep(f, step, weekday);
    assert Remainder(-1, 7) == -1;
  }

  /** Parsing the text of a field that is not empty, into a field where nothing is set, rebuilds
      exactly the same set. */
  lemma ParsePrinted(f: Field, weekday: bool)
    requires Sound(f) && (weekday ==> f.min + |f.values| <= 7) && !IsNull(f)
    ensures AllSteps(StepsOf(Print(f))) && SetSteps(Blank(f), StepsOf(Print(f)), weekday) == f
  {
    if forall i :: 0 <= i < |f.values| ==> f.values[i] {
      StarSetsAll(Blank(f), weekday);
    } else {
      ParsePrintedRuns(f, weekday);
    }
  }

  lemma ParsePrintedRuns(f: Field, weekday: bool)
    requires Sound(f) && (weekday ==> f.min + |f.values| <= 7) && !IsNull(f)
    requires !(forall i :: 0 <= i < |f.values| ==> f.values[i])
    ensures AllSteps(StepsOf(Print(f))) && SetSteps(Blank(f), StepsOf(Print(f)), weekday) == f
  {
    hide *;
    var runs := RunsFrom(f, 0, 1);
    RunsAreSmall(f, weekday);
    RunsParse(runs, f, weekday);
    PrintedSteps(f, weekday);
    IsStepsAre(Steps(Texts(runs)), runs);
    RunsRebuild(f, Steps(Texts(runs)), weekday);
  }

  lemma IsStepsAre(steps: seq<Step>, runs: seq<Run>)
    requires |steps| == |runs| && AllSteps(steps) && forall k :: 0 <= k < |runs| ==> steps[k] == RunStep(runs[k])
    ensures StepsAre(steps, runs)
  {
  }

  lemma PrintedSteps(f: Field, weekday: bool)
    requires 0 < |f.values| && Small(RunsFrom(f, 0, 1), f, weekday) && !IsNull(f)
    requires !(forall i :: 0 <= i < |f.values| ==> f.values[i])
    ensures StepsOf(Print(f)) == Steps(Texts(RunsFrom(f, 0, 1)))
  {
    var runs := RunsFrom(f, 0, 1);
    SomeRuns(f);
    RunsParse(runs, f, weekday);
    hide Steps, Texts, RunsFrom, Plain, Digits, RunStep, Joined, Split;
    SplitJoined(Texts(runs));
  }

  lemma RunsRebuild(f: Field, steps: seq<Step>, weekday: bool)
    requires 0 < |f.values| && Small(RunsFrom(f, 0, 1), f, weekday) && StepsAre(steps, RunsFrom(f, 0, 1))
    ensures AllSteps(steps) && SetSteps(Blank(f), steps, weekday) == f
  {
    var g := SetSteps(Blank(f), steps, weekday);
    hide RunsFrom, SetSteps, StepsAre, Small;
    forall i | 0 <= i < |f.values| ensures g.values[i] == f.values[i] {
      RebuildAt(f, steps, weekday, i);
    }
  }

  lemma BlankFacts(f: Field, runs: seq<Run>, steps: seq<Step>, weekday: bool, i: nat)
    requires i < |f.values| && Small(runs, f, weekday) && StepsAre(steps, runs)
    ensures AllSteps(steps) && Small(runs, Blank(f), weekday)
    ensures Blank(f).min == f.min && |Blank(f).values| == |f.values| && !Blank(f).values[i]
  {
    hide RunStep, Digits;
  }

  lemma RebuildAt(f: Field, steps: seq<Step>, weekday: bool, i: nat)
    requires i < |f.values| && Small(RunsFrom(f, 0, 1), f, weekday) && StepsAre(steps, RunsFrom(f, 0, 1))
    ensures AllSteps(steps) && SetSteps(Blank(f), steps, weekday).values[i] == f.values[i]
  {
    hide *;
    var runs := RunsFrom(f, 0, 1);
    BlankFacts(f, runs, steps, weekday, i);
    SetRuns(runs, steps, Blank(f), weekday, i);
    RunsCover(f, 0, 1, i);
  }

  lemma SomeRuns(f: Field)
    requires 0 < |f.values|
    ensures IsNull(f) <==> RunsFrom(f, 0, 1) == []
  {
    forall i | 0 <= i < |f.values|
      ensures f.values[i] <==> InRuns(RunsFrom(f, 0, 1), f.min + i)
    {
      RunsCover(f, 0, 1, i);
    }
    if RunsFrom(f, 0, 1) != [] {
      var x := RunsFrom(f, 0, 1)[0];
      assert x in RunsFrom(f, 0, 1);
      assert f.values[x.first - f.min];
    }
  }

  // ---------------------------------------------------------------------------------------------
  // Fields where nothing is set
  // ---------------------------------------------------------------------------------------------

  /** A bound is out of range, or the range ends before it starts. */
  predicate SetsNothing(f: Field, step: Step, weekday: bool)
    requires IsStep(step)
  {
    var max := f.min + |f.values| - 1;
    var a := if Start(step, weekday) == -1 then f.min else Start(step, weekday);
    var b := if Stop(step, weekday) == -1 then max else Stop(step, weekday);
    !(f.min <= a <= b <= max)
  }

  lemma SetStepIsNull(f: Field, step: Step, weekday: bool)
    requires IsStep(step) && 0 < |f.values|
    ensures SetsNothing(f, step, weekday) ==> SetStep(f, step, weekday) == f
    ensures IsNull(SetStep(f, step, weekday)) <==> IsNull(f) && SetsNothing(f, step, weekday)
  {
    var g := SetStep(f, step, weekday);
    var a := if Start(step, weekday) == -1 then f.min else Start(step, weekday);
    hide Start, Stop;
    if SetsNothing(f, step, weekday) {
      assert g.values == f.values;
    } else {
      assert g.values[a - f.min];
      assert forall i :: 0 <= i < |f.values| && f.values[i] ==> g.values[i];
    }
  }

  /** Nothing is set by a list of steps exactly when none of its steps sets anything. */
  lemma {:induction false} SetStepsIsNullExactly(f: Field, steps: seq<Step>, weekday: bool)
    requires AllSteps(steps) && 0 < |f.values|
    ensures IsNull(SetSteps(f, steps, weekday)) <==> IsNull(f) && forall s <- steps :: SetsNothing(f, s, weekday)
    decreases |steps|
  {
    if steps != [] {
      assert steps[0] in steps && forall s <- steps[1..] :: s in steps;
      var g := SetStep(f, steps[0], weekday);
      SetStepIsNull(f, steps[0], weekday);
      SetStepsIsNullExactly(g, steps[1..], weekday);
      assert steps == [steps[0]] + steps[1..];
      assert forall s <- steps[1..] :: SetsNothing(g, s, weekday) <==> SetsNothing(f, s, weekday);
      hide IsNull, SetStep, SetsNothing, IsStep;
    }
  }

  /** A range of days of the week sets nothing exactly when its bounds, each reduced modulo seven, are
      in the wrong order: a range that ends with a seven does, unless it starts with a multiple of it. */
  lemma WeekdayRangeIsNullExactly(a: nat, b: nat)
    requires a <= INT_MAX && b <= INT_MAX
    ensures AllSteps(StepsOf(Number(a) + "-" + Number(b)))
    ensures IsNull(SetSteps(Field(0, seq(7, _ => false)), StepsOf(Number(a) + "-" + Number(b)), true))
       <==> a % 7 > b % 7
  {
    var f := Field(0, seq(7, _ => false));
    var step := Step(Number(a), Number(b), "");
    assert IsNull(f);
    RangeSteps(Number(a), Number(b));
    NumberHasValue(a);
    NumberHasValue(b);
    assert SetsNothing(f, step, true) <==> a % 7 > b % 7;
    hide *;
    SetStepsIsNullExactly(f, [step], true);
  }

  lemma RangeSteps(a: string, b: string)
    requires Digits(a) && Digits(b) && a != [] && b != []
    ensures StepsOf(a + "-" + b) == [Step(a, b, "")] && AllSteps([Step(a, b, "")])
  {
    var s := a + "-" + b;
    assert Plain(s);
    hide Trim, StepOf, Split;
    SplitFirst(s, "", ',');
    TrimPlain(s);
    StepOfRange(a, b);
  }

  // ---------------------------------------------------------------------------------------------
  // Prints are unique
  // ---------------------------------------------------------------------------------------------

  predicate NoSpace(s: string) {
    forall i :: 0 <= i < |s| ==> !IsSpace(s[i])
  }

  lemma PrintStarts(f: Field)
    requires Sound(f)
    ensures Print(f) != [] && NoSpace(Print(f))
    ensures IsNull(f) <==> Print(f) == "ERROR"
  {
    var runs := RunsFrom(f, 0, 1);
    SomeRuns(f);
    if !(forall i :: 0 <= i < |f.values| ==> f.values[i]) && runs != [] {
      RunsAreSmall(f, false);
      NoSpaceJoined(runs, f);
      assert Joined(Texts(runs)) == "," + RunText(runs[0]) + Joined(Texts(runs)[1..]);
      assert RunText(runs[0])[0] == Number(runs[0].first)[0];
      assert Print(f) == Joined(Texts(runs))[1..];
      hide Joined, RunText, Number, RunsFrom, Texts;
      assert IsDigit(Print(f)[0]);
    }
  }

  lemma {:induction false} NoSpaceJoined(runs: seq<Run>, f: Field)
    requires Small(runs, f, false)
    ensures NoSpace(Joined(Texts(runs)))
    decreases |runs|
  {
    if runs != [] {
      RunsParse(runs, f, false);
      assert Texts(runs)[1..] == Texts(runs[1..]);
      assert forall x <- runs[1..] :: x in runs;
      assert Joined(Texts(runs)) == "," + Texts(runs)[0] + Joined(Texts(runs[1..]));
      hide Texts, Joined, RunText, NoSpace, Steps, StepOf, RunStep;
      NoSpaceJoined(runs[1..], f);
      NoSpaceAdded(Texts(runs)[0], Joined(Texts(runs[1..])));
    }
  }

  lemma NoSpaceAdded(text: string, rest: string)
    requires Plain(text) && NoSpace(rest)
    ensures NoSpace("," + text + rest)
  {
  }

  /** Two fields with the same bounds print alike exactly when they hold the same values. */
  lemma PrintIsInjective(f: Field, g: Field)
    requires Sound(f) && f.min == g.min && |f.values| == |g.values|
    ensures Print(f) == Print(g) <==> f == g
  {
    PrintStarts(f);
    PrintStarts(g);
    if Print(f) == Print(g) {
      if IsNull(f) {
        assert f.values == g.values;
      } else {
        ParsePrinted(f, false);
        ParsePrinted(g, false);
        assert Blank(f) == Blank(g);
      }
    }
  }
}
