/** The text of a cron field: decimal numbers, steps, and comma-separated lists of them. */
module CronText {

  predicate IsDigit(c: char) {
    '0' <= c <= '9'
  }

  predicate IsSpace(c: char) {
    c == ' ' || c == '\t' || c == '\n' || c == '\r'
  }

  predicate Digits(s: string) {
    forall i :: 0 <= i < |s| ==> IsDigit(s[i])
  }

  function DigitOf(n: nat): (c: char)
    requires n < 10
    ensures IsDigit(c) && DigitValue(c) == n
  {
    '0' + n as char
  }

  function DigitValue(c: char): nat
    requires IsDigit(c)
  {
    (c - '0') as nat
  }

  function Number(n: nat): (s: string)
    ensures s != [] && Digits(s)
  {
    if n < 10 then [DigitOf(n)] else Number(n / 10) + [DigitOf(n % 10)]
  }

  function ValueOf(s: string): nat
    requires Digits(s)
  {
    if s == [] then 0 else 10 * ValueOf(s[..|s|-1]) + DigitValue(s[|s|-1])
  }

  lemma {:induction false} NumberHasValue(n: nat)
    ensures ValueOf(Number(n)) == n
  {
    if n >= 10 {
      NumberHasValue(n / 10);
      var s := Number(n);
      assert s[..|s|-1] == Number(n / 10) && s[|s|-1] == DigitOf(n % 10);
    }
  }

  const INT_MAX := 2147483647

  /** No digits, or a number too large for an int, give no number. */
  function ToInt(s: string): int
    requires Digits(s)
  {
    if s == [] || ValueOf(s) > INT_MAX then -1 else ValueOf(s)
  }

  // ---------------------------------------------------------------------------------------------
  // Steps
  // ---------------------------------------------------------------------------------------------

  /** The digits of a step, each part possibly empty: an absent part matches no digits. */
  datatype Step = NoStep | Step(start: string, stop: string, modulo: string)

  function LeadingDigits(s: string): (n: nat)
    ensures n <= |s| && Digits(s[..n]) && (n < |s| ==> !IsDigit(s[n]))
  {
    if s == [] || !IsDigit(s[0]) then 0
    else
      var n := 1 + LeadingDigits(s[1..]);
      assert s[..n] == [s[0]] + s[1..][..n-1];
      n
  }

  /** A step is a star, or a number or a range whose first number may be left out, followed maybe
      by a slash and a modulo. */
  function StepOf(s: string): (r: Step)
    ensures r.Step? ==> Digits(r.start) && Digits(r.stop) && Digits(r.modulo)
  {
    if s != [] && s[0] == '*' then WithModulo("", "", s[1..])
    else
      var n := LeadingDigits(s);
      var rest := s[n..];
      if rest != [] && rest[0] == '-' then
        var k := LeadingDigits(rest[1..]);
        if k == 0 then NoStep else WithModulo(s[..n], rest[1..][..k], rest[1..][k..])
      else WithModulo(s[..n], "", rest)
  }

  function WithModulo(start: string, stop: string, rest: string): (r: Step)
    requires Digits(start) && Digits(stop)
    ensures r.Step? ==> Digits(r.start) && Digits(r.stop) && Digits(r.modulo)
  {
    if rest == [] then Step(start, stop, "")
    else if rest[0] == '/' && rest[1..] != [] && Digits(rest[1..]) then Step(start, stop, rest[1..])
    else NoStep
  }

  lemma {:induction false} LeadingDigitsOf(digits: string, rest: string)
    requires Digits(digits) && (rest == [] || !IsDigit(rest[0]))
    ensures LeadingDigits(digits + rest) == |digits|
  {
    if digits == [] {
      assert digits + rest == rest;
    } else {
      assert (digits + rest)[1..] == digits[1..] + rest;
      LeadingDigitsOf(digits[1..], rest);
    }
  }

  lemma StepOfNumber(a: string)
    requires Digits(a) && a != []
    ensures StepOf(a) == Step(a, "", "")
  {
    LeadingDigitsOf(a, "");
    assert a + "" == a && a[..|a|] == a && a[|a|..] == [];
  }

  lemma StepOfRange(a: string, b: string)
    requires Digits(a) && Digits(b) && a != [] && b != []
    ensures StepOf(a + "-" + b) == Step(a, b, "")
  {
    var s := a + "-" + b;
    assert s == a + ("-" + b);
    LeadingDigitsOf(a, "-" + b);
    assert s[..|a|] == a && s[|a|..] == "-" + b;
    assert ("-" + b)[1..] == b && b + "" == b;
    LeadingDigitsOf(b, "");
    assert b[..|b|] == b && b[|b|..] == [];
  }

  // ---------------------------------------------------------------------------------------------
  // Lists of steps
  // ---------------------------------------------------------------------------------------------

  function Until(s: string, c: char): (n: nat)
    ensures n <= |s| && (forall i :: 0 <= i < n ==> s[i] != c) && (n < |s| ==> s[n] == c)
  {
    if s == [] || s[0] == c then 0 else 1 + Until(s[1..], c)
  }

  /** The texts between separators. */
  function Split(s: string, c: char): (r: seq<string>)
    ensures r != []
    decreases |s|
  {
    var n := Until(s, c);
    if n == |s| then [s] else [s[..n]] + Split(s[n+1..], c)
  }

  lemma SplitFirst(first: string, rest: string, c: char)
    requires c !in first
    ensures Split(first + [c] + rest, c) == [first] + Split(rest, c) && Split(first, c) == [first]
  {
    assert first + [c] + rest == first + ([c] + rest) && first + "" == first;
    UntilEnd(first, [c] + rest, c);
    UntilEnd(first, "", c);
    var s := first + [c] + rest;
    assert s[..|first|] == first && s[|first|+1..] == rest;
  }

  function TrimLeft(s: string): string {
    if s != [] && IsSpace(s[0]) then TrimLeft(s[1..]) else s
  }

  function TrimRight(s: string): string {
    if s != [] && IsSpace(s[|s|-1]) then TrimRight(s[..|s|-1]) else s
  }

  function Trim(s: string): string {
    TrimRight(TrimLeft(s))
  }

  /** The steps of a field, or none when one of them is not a step. */
  function StepsOf(s: string): seq<Step> {
    Steps(Split(s, ','))
  }

  function Steps(texts: seq<string>): (r: seq<Step>)
    ensures |r| == |texts| && forall k :: 0 <= k < |r| ==> r[k] == StepOf(Trim(texts[k]))
  {
    seq(|texts|, k requires 0 <= k < |texts| => StepOf(Trim(texts[k])))
  }

  predicate Plain(s: string) {
    forall i :: 0 <= i < |s| ==> s[i] != ',' && !IsSpace(s[i])
  }

  lemma {:induction false} UntilEnd(s: string, rest: string, c: char)
    requires c !in s && (rest == [] || rest[0] == c)
    ensures Until(s + rest, c) == |s|
  {
    if s == [] {
      assert s + rest == rest;
    } else {
      assert (s + rest)[1..] == s[1..] + rest;
      UntilEnd(s[1..], rest, c);
    }
  }

  /** Texts without commas joined by commas are split back. */
  function Joined(texts: seq<string>): string {
    if texts == [] then "" else "," + texts[0] + Joined(texts[1..])
  }

  lemma {:induction false} SplitJoined(texts: seq<string>)
    requires texts != [] && forall k :: 0 <= k < |texts| ==> Plain(texts[k])
    ensures Joined(texts) != [] && Split(Joined(texts)[1..], ',') == texts
  {
    var first, rest := texts[0], texts[1..];
    JoinedCons(texts);
    assert Plain(first) && ',' !in first;
    assert texts == [first] + rest;
    if rest == [] {
      SplitFirst(first, "", ',');
      assert first + Joined(rest) == first;
    } else {
      SplitJoined(rest);
      JoinedCons(rest);
      hide *;
      SplitFirst(first, Joined(rest)[1..], ',');
      assert first + [','] + Joined(rest)[1..] == first + Joined(rest);
    }
  }

  lemma JoinedCons(texts: seq<string>)
    requires texts != []
    ensures Joined(texts) != [] && Joined(texts)[0] == ',' && Joined(texts)[1..] == texts[0] + Joined(texts[1..])
  {
  }

  lemma TrimPlain(s: string)
    requires Plain(s)
    ensures Trim(s) == s
  {
  }
}
