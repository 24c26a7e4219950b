/** Dot-hierarchical patterns, and the regular expressions they are converted to. */
module DotGlob {

  // ---------------------------------------------------------------------------------------------
  // Patterns
  // ---------------------------------------------------------------------------------------------

  /** A star stays within a segment, two stars cross dots, anything else is for itself. */
  datatype Token = Segment | Deep | Literal(c: char)

  /** A backslash escapes a star or a backslash, stands for itself before anything else, and is
      dropped at the end. */
  function Tokens(p: string): seq<Token>
    decreases |p|
  {
    if p == "" then []
    else if p[0] == '*' then
      if |p| > 1 && p[1] == '*' then [Deep] + Tokens(p[2..]) else [Segment] + Tokens(p[1..])
    else if p[0] == '\\' then
      if |p| == 1 then []
      else if p[1] == '*' || p[1] == '\\' then [Literal(p[1])] + Tokens(p[2..])
      else [Literal('\\'), Literal(p[1])] + Tokens(p[2..])
    else [Literal(p[0])] + Tokens(p[1..])
  }

  ghost predicate GlobMatches(ts: seq<Token>, s: string)
    decreases |ts|
  {
    if ts == [] then s == ""
    else
      match ts[0]
      case Literal(c) => s != "" && s[0] == c && GlobMatches(ts[1..], s[1..])
      case Segment => exists k :: 0 <= k <= |s| && '.' !in s[..k] && GlobMatches(ts[1..], s[k..])
      case Deep => exists k :: 0 <= k <= |s| && GlobMatches(ts[1..], s[k..])
  }

  // ---------------------------------------------------------------------------------------------
  // The conversion
  // ---------------------------------------------------------------------------------------------

  /** Null, or not a Latin-1 character. */
  predicate Foreign(c: char) {
    c == '\0' || c as int > 255
  }

  predicate Escaped(c: char) {
    c == '.' || c == '[' || c == ']' || c == '(' || c == ')' || c == '+' || c == '?' || c == '^' || c == '$'
    || Foreign(c)
  }

  function Body(p: string): string
    decreases |p|
  {
    if p == "" then ""
    else if p[0] == '*' then
      if |p| > 1 && p[1] == '*' then ".*" + Body(p[2..]) else "[^.]*" + Body(p[1..])
    else if p[0] == '\\' then
      if |p| == 1 then ""
      else if p[1] == '*' || p[1] == '\\' then ['\\', p[1]] + Body(p[2..])
      else ['\\', '\\', p[1]] + Body(p[2..])
    else if Escaped(p[0]) then ['\\', p[0]] + Body(p[1..])
    else [p[0]] + Body(p[1..])
  }

  lemma BodyCases(p: string)
    ensures Body("") == ""
    ensures |p| > 0 && p[0] == '*' ==>
              Body(p) == if |p| > 1 && p[1] == '*' then ".*" + Body(p[2..]) else "[^.]*" + Body(p[1..])
    ensures |p| > 0 && p[0] == '\\' ==>
              Body(p) == if |p| == 1 then ""
                         else if p[1] == '*' || p[1] == '\\' then ['\\', p[1]] + Body(p[2..])
                         else ['\\', '\\', p[1]] + Body(p[2..])
    ensures |p| > 0 && p[0] != '*' && p[0] != '\\' ==>
              Body(p) == if Escaped(p[0]) then ['\\', p[0]] + Body(p[1..]) else [p[0]] + Body(p[1..])
  {
    hide Escaped;
  }

  function Converted(p: string): string {
    "^" + Body(p) + "$"
  }

  method ConvertDotHierarchicalFilterToRegexp(pattern: string) returns (re: string)
    ensures re == Converted(pattern)
  {
    re := "^";
    var i := 0;
    BodyCases("");
    hide Body, Escaped;
    while i < |pattern|
      invariant 0 <= i <= |pattern| && re + Body(pattern[i..]) == "^" + Body(pattern)
    {
      ghost var rest := pattern[i..];
      assert |rest| > 1 ==> rest[2..] == pattern[i+2..];
      assert rest[1..] == pattern[i+1..];
      BodyCases(rest);
      var c := pattern[i];
      if c == '*' {
        if i >= |pattern| - 1 || pattern[i+1] != '*' {
          re := re + "[^.]*";
        } else {
          re := re + ".*";
          i := i + 1;
        }
      } else if c == '\\' {
        if i < |pattern| - 1 {
          i := i + 1;
          c := pattern[i];
          if c == '*' || c == '\\' {
            re := re + "\\" + [c];
          } else {
            re := re + "\\\\" + [c];
          }
        }
      } else if Escaped(c) {
        re := re + "\\" + [c];
      } else {
        re := re + [c];
      }
      i := i + 1;
    }
    assert pattern[i..] == "";
    re := re + "$";
  }

  // ---------------------------------------------------------------------------------------------
  // The part of the regular expression language that is used
  // ---------------------------------------------------------------------------------------------

  datatype Class = Char(c: char) | NotDot | NotNewline

  datatype Piece = Start | End | Bar | One(cls: Class) | Many(cls: Class)

  datatype Lexed = Unsupported | Lexed(pieces: seq<Piece>)

  predicate Alphanumeric(c: char) {
    'a' <= c <= 'z' || 'A' <= c <= 'Z' || '0' <= c <= '9'
  }

  predicate Special(c: char) {
    c in "\\^$.[|()?*+{"
  }

  function Then(p: Piece, rest: Lexed): Lexed {
    if rest.Unsupported? then Unsupported else Lexed([p] + rest.pieces)
  }

  /** A class, repeated when a star follows. */
  function Quantified(cls: Class, text: string): Lexed
    decreases |text|, 1
  {
    if text != "" && text[0] == '*' then Then(Many(cls), Lex(text[1..])) else Then(One(cls), Lex(text))
  }

  /** The pieces of the text of a regular expression. */
  function Lex(text: string): Lexed
    decreases |text|, 0
  {
    if text == "" then Lexed([])
    else if text[0] == '^' then Then(Start, Lex(text[1..]))
    else if text[0] == '$' then Then(End, Lex(text[1..]))
    else if text[0] == '|' then Then(Bar, Lex(text[1..]))
    else if text[0] == '.' then Quantified(NotNewline, text[1..])
    else if text[0] == '[' then
      if |text| >= 4 && text[..4] == "[^.]" then Quantified(NotDot, text[4..]) else Unsupported
    else if text[0] == '\\' then
      if |text| >= 2 && !Alphanumeric(text[1]) then Quantified(Char(text[1]), text[2..]) else Unsupported
    else if Special(text[0]) then Unsupported
    else Quantified(Char(text[0]), text[1..])
  }

  predicate In(cls: Class, c: char) {
    match cls
    case Char(d) => c == d
    case NotDot => c != '.'
    case NotNewline => c != '\n'
  }

  /** Pieces without bars match from a position on. */
  ghost predicate MatchesAt(ps: seq<Piece>, s: string, i: nat)
    requires i <= |s|
    decreases |ps|
  {
    if ps == [] then true
    else
      match ps[0]
      case Start => i == 0 && MatchesAt(ps[1..], s, i)
      case End => i == |s| && MatchesAt(ps[1..], s, i)
      case Bar => false
      case One(cls) => i < |s| && In(cls, s[i]) && MatchesAt(ps[1..], s, i + 1)
      case Many(cls) =>
        exists k :: i <= k <= |s| && AllIn(cls, s, i, k) && MatchesAt(ps[1..], s, k)
  }

  predicate AllIn(cls: Class, s: string, i: nat, k: nat)
    requires i <= k <= |s|
  {
    forall j :: i <= j < k ==> In(cls, s[j])
  }

  function UpToBar(ps: seq<Piece>): (n: nat)
    ensures n <= |ps| && (forall k :: 0 <= k < n ==> ps[k] != Bar) && (n < |ps| ==> ps[n] == Bar)
  {
    if ps == [] || ps[0] == Bar then 0 else 1 + UpToBar(ps[1..])
  }

  /** One of the alternatives matches somewhere. */
  ghost predicate HasMatch(ps: seq<Piece>, s: string)
    decreases |ps|
  {
    var n := UpToBar(ps);
    || (exists i :: 0 <= i <= |s| && MatchesAt(ps[..n], s, i))
    || (n < |ps| && HasMatch(ps[n+1..], s))
  }

  // ---------------------------------------------------------------------------------------------
  // The converted text is read as it was meant
  // ---------------------------------------------------------------------------------------------

  /** No braces, and no backslash before a character that is special in a regular expression. */
  predicate Fair(p: string)
    decreases |p|
  {
    if p == "" then true
    else if p[0] == '\\' then
      |p| == 1 || ((p[1] == '*' || p[1] == '\\' || (!Special(p[1]) && p[1] != ']' && p[1] != '}')) && Fair(p[2..]))
    else p[0] != '{' && p[0] != '}' && Fair(p[1..])
  }

  function PieceOf(t: Token): Piece {
    match t
    case Segment => Many(NotDot)
    case Deep => Many(NotNewline)
    case Literal(c) => if c == '|' then Bar else One(Char(c))
  }

  function Pieces(ts: seq<Token>): (ps: seq<Piece>)
    ensures |ps| == |ts| && forall k :: 0 <= k < |ps| ==> ps[k] == PieceOf(ts[k])
  {
    seq(|ts|, k requires 0 <= k < |ts| => PieceOf(ts[k]))
  }

  lemma PiecesCons(t: Token, ts: seq<Token>)
    ensures Pieces([t] + ts) == [PieceOf(t)] + Pieces(ts)
  {
  }

  lemma LexCases(text: string, c: char, rest: string)
    requires rest != "" && rest[0] != '*'
    ensures text == [c] + rest && !Special(c) ==> Lex(text) == Then(One(Char(c)), Lex(rest))
    ensures text == ['\\', c] + rest && !Alphanumeric(c) ==> Lex(text) == Then(One(Char(c)), Lex(rest))
    ensures text == "[^.]*" + rest ==> Lex(text) == Then(Many(NotDot), Lex(rest))
    ensures text == ".*" + rest ==> Lex(text) == Then(Many(NotNewline), Lex(rest))
    ensures text == "|" + rest ==> Lex(text) == Then(Bar, Lex(rest))
  {
    if text == "[^.]*" + rest {
      assert text[..4] == "[^.]" && text[4..] == "*" + rest && ("*" + rest)[1..] == rest;
    }
    if text == ".*" + rest {
      assert text[1..] == "*" + rest && ("*" + rest)[1..] == rest;
    }
    if text == ['\\', c] + rest {
      assert text[2..] == rest;
    }
    if text == [c] + rest || text == "|" + rest {
      assert text[1..] == rest;
    }
  }

  lemma BodyStarts(p: string)
    ensures Body(p) + "$" != "" && (Body(p) + "$")[0] != '*'
  {
  }

  /** The body of a fair pattern is read as one piece for each of its tokens. */
  lemma {:induction false} LexBody(p: string)
    requires Fair(p)
    ensures Lex(Body(p) + "$") == Lexed(Pieces(Tokens(p)) + [End])
    decreases |p|
  {
    if p == "" {
      assert Body(p) + "$" == "$" && "$"[1..] == "";
      assert Pieces([]) + [End] == [End] && [End] + [] == [End];
    } else if p[0] == '*' && |p| > 1 && p[1] == '*' {
      assert p[1..][1..] == p[2..];
      LexToken(p, p[2..], Deep, ".*");
    } else if p[0] == '*' {
      LexToken(p, p[1..], Segment, "[^.]*");
    } else if p[0] == '\\' && |p| == 1 {
      assert Body(p) + "$" == "$" && "$"[1..] == "";
      assert Pieces([]) + [End] == [End] && [End] + [] == [End];
    } else if p[0] == '\\' && (p[1] == '*' || p[1] == '\\') {
      LexToken(p, p[2..], Literal(p[1]), ['\\', p[1]]);
    } else if p[0] == '\\' {
      LexBackslash(p);
    } else if Escaped(p[0]) {
      LexToken(p, p[1..], Literal(p[0]), ['\\', p[0]]);
    } else {
      LexToken(p, p[1..], Literal(p[0]), [p[0]]);
    }
  }

  lemma {:induction false} LexToken(p: string, rest: string, t: Token, text: string)
    requires Fair(rest) && |rest| < |p| && Tokens(p) == [t] + Tokens(rest) && Body(p) == text + Body(rest)
    requires match t
             case Deep => text == ".*"
             case Segment => text == "[^.]*"
             case Literal(c) =>
               || (text == [c] && (c == '|' || !Special(c)))
               || (text == ['\\', c] && !Alphanumeric(c) && c != '|')
    ensures Lex(Body(p) + "$") == Lexed(Pieces(Tokens(p)) + [End])
    decreases |p|, 0
  {
    var tail := Body(rest) + "$";
    LexBody(rest);
    BodyStarts(rest);
    PiecesCons(t, Tokens(rest));
    assert Body(p) + "$" == text + tail;
    assert [PieceOf(t)] + Pieces(Tokens(rest)) + [End] == [PieceOf(t)] + (Pieces(Tokens(rest)) + [End]);
    hide Body, Tokens, Pieces, Lex;
    LexCases(text + tail, if t.Literal? then t.c else ' ', tail);
  }

  lemma {:induction false} LexBackslash(p: string)
    requires |p| > 1 && p[0] == '\\' && p[1] != '*' && p[1] != '\\' && Fair(p)
    ensures Lex(Body(p) + "$") == Lexed(Pieces(Tokens(p)) + [End])
    decreases |p|, 0
  {
    var c, rest := p[1], p[2..];
    var tail := Body(rest) + "$";
    LexBody(rest);
    BodyStarts(rest);
    BackslashParts(p);
    assert !Special(c) && c != '|' && c != '*' && Fair(rest);
    hide Body, Tokens, Pieces, Lex, Fair;
    LexCases([c] + tail, c, tail);
    LexCases(['\\', '\\'] + ([c] + tail), '\\', [c] + tail);
  }

  lemma BackslashParts(p: string)
    requires |p| > 1 && p[0] == '\\' && p[1] != '*' && p[1] != '\\'
    ensures Body(p) + "$" == ['\\', '\\'] + ([p[1]] + (Body(p[2..]) + "$"))
    ensures p[1] != '|' ==>
              Pieces(Tokens(p)) + [End] == [One(Char('\\'))] + ([One(Char(p[1]))] + (Pieces(Tokens(p[2..])) + [End]))
  {
    hide *;
    BackslashCases(p);
    var c, text, rest := p[1], Body(p[2..]), Tokens(p[2..]);
    assert Body(p) + "$" == ['\\', '\\'] + ([c] + (text + "$"));
    if c != '|' {
      PiecesCons(Literal(c), rest);
      PiecesCons(Literal('\\'), [Literal(c)] + rest);
      PieceOfBoth(c);
      OneAfterAnother(One(Char('\\')), One(Char(c)), Pieces(rest), End);
    }
  }

  lemma BackslashCases(p: string)
    requires |p| > 1 && p[0] == '\\' && p[1] != '*' && p[1] != '\\'
    ensures Body(p) == ['\\', '\\', p[1]] + Body(p[2..])
    ensures Tokens(p) == [Literal('\\')] + ([Literal(p[1])] + Tokens(p[2..]))
  {
    hide *;
    BodyCases(p);
    BackslashTokens(p);
    TwoInFront(Literal('\\'), Literal(p[1]), Tokens(p[2..]));
  }

  lemma TwoInFront(a: Token, b: Token, rest: seq<Token>)
    ensures [a, b] + rest == [a] + ([b] + rest)
  {
  }

  lemma BackslashTokens(p: string)
    requires |p| > 1 && p[0] == '\\' && p[1] != '*' && p[1] != '\\'
    ensures Tokens(p) == [Literal('\\'), Literal(p[1])] + Tokens(p[2..])
  {
  }

  lemma PieceOfBoth(c: char)
    requires c != '|'
    ensures PieceOf(Literal(c)) == One(Char(c)) && PieceOf(Literal('\\')) == One(Char('\\'))
  {
  }

  lemma OneAfterAnother(a: Piece, b: Piece, rest: seq<Piece>, end: Piece)
    ensures [a] + ([b] + rest) + [end] == [a] + ([b] + (rest + [end]))
  {
  }

  /** The converted text of a fair pattern is read in one way: as it was meant. */
  lemma LexConverted(p: string)
    requires Fair(p)
    ensures Lex(Converted(p)) == Lexed([Start] + (Pieces(Tokens(p)) + [End]))
  {
    LexBody(p);
    assert Converted(p) == "^" + (Body(p) + "$");
    assert ("^" + (Body(p) + "$"))[1..] == Body(p) + "$";
  }

  // ---------------------------------------------------------------------------------------------
  // Matching is preserved
  // ---------------------------------------------------------------------------------------------

  lemma {:induction false} MatchGlob(ts: seq<Token>, s: string, i: nat)
    requires i <= |s| && '\n' !in s && Literal('|') !in ts
    ensures MatchesAt(Pieces(ts) + [End], s, i) <==> GlobMatches(ts, s[i..])
    decreases |ts|
  {
    if ts == [] {
      assert Pieces(ts) + [End] == [End] && [End][1..] == [];
    } else {
      var t, rest := ts[0], ts[1..];
      assert ts == [t] + rest && Literal('|') !in rest;
      PiecesCons(t, rest);
      var ps := Pieces(rest) + [End];
      assert Pieces(ts) + [End] == [PieceOf(t)] + ps && ([PieceOf(t)] + ps)[1..] == ps;
      forall k | i <= k <= |s| ensures MatchesAt(ps, s, k) <==> GlobMatches(rest, s[i..][k-i..]) {
        MatchGlob(rest, s, k);
        assert s[i..][k-i..] == s[k..];
      }
      hide Pieces;
      MatchToken(t, rest, ps, s, i);
    }
  }

  lemma MatchMany(cls: Class, ps: seq<Piece>, s: string, i: nat)
    requires i <= |s|
    ensures MatchesAt([Many(cls)] + ps, s, i)
       <==> exists k :: i <= k <= |s| && AllIn(cls, s, i, k) && MatchesAt(ps, s, k)
  {
    assert ([Many(cls)] + ps)[1..] == ps;
  }

  ghost predicate SameRest(rest: seq<Token>, ps: seq<Piece>, s: string, i: nat)
    requires i <= |s|
  {
    forall k :: i <= k <= |s| ==> (MatchesAt(ps, s, k) <==> GlobMatches(rest, s[i..][k-i..]))
  }

  lemma MatchToken(t: Token, rest: seq<Token>, ps: seq<Piece>, s: string, i: nat)
    requires i <= |s| && '\n' !in s && t != Literal('|') && SameRest(rest, ps, s, i)
    ensures MatchesAt([PieceOf(t)] + ps, s, i) <==> GlobMatches([t] + rest, s[i..])
  {
    match t {
      case Literal(c) =>
        assert ([PieceOf(t)] + ps)[1..] == ps && ([t] + rest)[1..] == rest;
        if i < |s| {
          assert s[i..][1..] == s[i..][i+1-i..];
        }
      case Segment => MatchSegment(rest, ps, s, i);
      case Deep => MatchDeep(rest, ps, s, i);
    }
  }

  lemma MatchSegment(rest: seq<Token>, ps: seq<Piece>, s: string, i: nat)
    requires i <= |s| && SameRest(rest, ps, s, i)
    ensures MatchesAt([Many(NotDot)] + ps, s, i) <==> GlobMatches([Segment] + rest, s[i..])
  {
    var u := s[i..];
    MatchMany(NotDot, ps, s, i);
    assert ([Segment] + rest)[1..] == rest;
    if MatchesAt([Many(NotDot)] + ps, s, i) {
      var k :| i <= k <= |s| && AllIn(NotDot, s, i, k) && MatchesAt(ps, s, k);
      SegmentIs(s, i, k);
      assert 0 <= k - i <= |u| && '.' !in u[..k-i] && GlobMatches(rest, u[k-i..]);
    }
    if GlobMatches([Segment] + rest, u) {
      var n :| 0 <= n <= |u| && '.' !in u[..n] && GlobMatches(rest, u[n..]);
      SegmentIs(s, i, i + n);
      assert (i + n) - i == n && MatchesAt(ps, s, i + n);
    }
  }

  lemma MatchDeep(rest: seq<Token>, ps: seq<Piece>, s: string, i: nat)
    requires i <= |s| && '\n' !in s && SameRest(rest, ps, s, i)
    ensures MatchesAt([Many(NotNewline)] + ps, s, i) <==> GlobMatches([Deep] + rest, s[i..])
  {
    var u := s[i..];
    MatchMany(NotNewline, ps, s, i);
    assert ([Deep] + rest)[1..] == rest;
    if MatchesAt([Many(NotNewline)] + ps, s, i) {
      var k :| i <= k <= |s| && AllIn(NotNewline, s, i, k) && MatchesAt(ps, s, k);
      assert 0 <= k - i <= |u| && GlobMatches(rest, u[k-i..]);
    }
    if GlobMatches([Deep] + rest, u) {
      var n :| 0 <= n <= |u| && GlobMatches(rest, u[n..]);
      assert (i + n) - i == n && MatchesAt(ps, s, i + n);
      assert AllIn(NotNewline, s, i, i + n);
    }
  }

  lemma SegmentIs(s: string, i: nat, k: nat)
    requires i <= k <= |s|
    ensures AllIn(NotDot, s, i, k) <==> '.' !in s[i..][..k-i]
  {
    var part := s[i..][..k-i];
    assert part == s[i..k];
    assert forall j :: i <= j < k ==> part[j-i] == s[j];
    assert forall m :: 0 <= m < k - i ==> part[m] == s[i+m];
  }

  /** A fair pattern without bars is converted to a regular expression that matches the same lines
      as the pattern. */
  lemma ConversionPreservesMatching(p: string, s: string)
    requires Fair(p) && '|' !in p && '\n' !in s
    ensures Lex(Converted(p)).Lexed?
    ensures HasMatch(Lex(Converted(p)).pieces, s) <==> GlobMatches(Tokens(p), s)
  {
    LexConverted(p);
    NoBarToken(p);
    NoBarPiece(Tokens(p));
    var ps := Pieces(Tokens(p)) + [End];
    MatchGlob(Tokens(p), s, 0);
    assert s[0..] == s;
    hide Lex, Converted, Tokens, Pieces, GlobMatches;
    OnlyFromStart(ps, s);
  }

  /** Without bars, an anchored expression matches from the start or not at all. */
  lemma OnlyFromStart(ps: seq<Piece>, s: string)
    requires Bar !in ps
    ensures HasMatch([Start] + ps, s) <==> MatchesAt(ps, s, 0)
  {
    var all := [Start] + ps;
    NoBars(all);
    assert all[..|all|] == all && all[1..] == ps;
    assert forall i :: 0 <= i <= |s| ==> (MatchesAt(all, s, i) <==> i == 0 && MatchesAt(ps, s, i));
  }

  lemma {:induction false} NoBars(ps: seq<Piece>)
    requires Bar !in ps
    ensures UpToBar(ps) == |ps|
  {
    if ps != [] {
      NoBars(ps[1..]);
    }
  }

  lemma {:induction false} NoBarToken(p: string)
    requires Fair(p)
    ensures Literal('|') in Tokens(p) <==> '|' in p
    decreases |p|
  {
    if p != "" {
      if p[0] == '*' && |p| > 1 && p[1] == '*' {
        assert p[1..][1..] == p[2..] && p == [p[0], p[1]] + p[2..];
        NoBarToken(p[2..]);
      } else if p[0] == '\\' && |p| > 1 {
        assert p == [p[0], p[1]] + p[2..];
        NoBarToken(p[2..]);
      } else {
        assert p == [p[0]] + p[1..];
        if !(p[0] == '\\') {
          NoBarToken(p[1..]);
        }
      }
    }
  }

  lemma NoBarPiece(ts: seq<Token>)
    ensures Bar in Pieces(ts) <==> Literal('|') in ts
  {
  }

  // ---------------------------------------------------------------------------------------------
  // Bars
  // ---------------------------------------------------------------------------------------------

  /** The literal characters before the first bar. */
  function Plain(ts: seq<Token>): string {
    if ts == [] || ts[0] == Literal('|') then ""
    else (if ts[0].Literal? then [ts[0].c] else "") + Plain(ts[1..])
  }

  lemma {:induction false} GlobNeeds(ts: seq<Token>, s: string, c: char)
    requires Literal(c) in ts && GlobMatches(ts, s)
    ensures c in s
    decreases |ts|
  {
    if ts[0] != Literal(c) {
      assert ts == [ts[0]] + ts[1..];
      match ts[0] {
        case Literal(d) => GlobNeeds(ts[1..], s[1..], c);
        case Segment =>
          var k :| 0 <= k <= |s| && '.' !in s[..k] && GlobMatches(ts[1..], s[k..]);
          GlobNeeds(ts[1..], s[k..], c);
        case Deep =>
          var k :| 0 <= k <= |s| && GlobMatches(ts[1..], s[k..]);
          GlobNeeds(ts[1..], s[k..], c);
      }
    }
  }

  /** What comes before the first bar matches its literal characters. */
  lemma {:induction false} PlainMatches(ts: seq<Token>, before: string)
    ensures var ps := Pieces(ts);
            var s := before + Plain(ts);
            MatchesAt(ps[..UpToBar(ps)], s, |before|)
    decreases |ts|
  {
    var ps := Pieces(ts);
    var n := UpToBar(ps);
    if ts != [] && ts[0] != Literal('|') {
      assert ts == [ts[0]] + ts[1..];
      PiecesCons(ts[0], ts[1..]);
      assert ps[1..] == Pieces(ts[1..]) && ps[..n][1..] == ps[1..][..n-1];
      var s := before + Plain(ts);
      if ts[0].Literal? {
        PlainMatches(ts[1..], before + [ts[0].c]);
        assert before + [ts[0].c] + Plain(ts[1..]) == s;
      } else {
        PlainMatches(ts[1..], before);
        assert before + Plain(ts[1..]) == s;
        assert ps[..n][0] == PieceOf(ts[0]);
        assert AllIn(ps[..n][0].cls, s, |before|, |before|);
      }
    }
  }

  lemma {:induction false} PlainChars(ts: seq<Token>, c: char)
    ensures c in Plain(ts) ==> Literal(c) in ts && c != '|'
  {
    if ts != [] && ts[0] != Literal('|') {
      PlainChars(ts[1..], c);
    }
  }

  lemma {:induction false} TokenChars(p: string, c: char)
    requires c != '\\'
    ensures Literal(c) in Tokens(p) ==> c in p
    decreases |p|
  {
    if p != "" {
      if p[0] == '*' && |p| > 1 && p[1] == '*' {
        TokenChars(p[2..], c);
      } else if p[0] == '\\' && |p| > 1 {
        TokenChars(p[2..], c);
        assert p == [p[0], p[1]] + p[2..];
      } else if p[0] != '\\' {
        TokenChars(p[1..], c);
      }
    }
  }

  /** A bar splits the regular expression: its first alternative matches the start of a line that
      has no bar, which the pattern does not match. */
  lemma BarMatchesTooMuch(p: string) returns (s: string)
    requires Fair(p) && '|' in p && '\n' !in p
    ensures '\n' !in s && Lex(Converted(p)).Lexed?
    ensures HasMatch(Lex(Converted(p)).pieces, s) && !GlobMatches(Tokens(p), s)
  {
    var ts := Tokens(p);
    s := Plain(ts);
    LexConverted(p);
    NoBarToken(p);
    NoBarPiece(ts);
    PlainChars(ts, '|');
    PlainChars(ts, '\n');
    TokenChars(p, '\n');
    if GlobMatches(ts, s) {
      GlobNeeds(ts, s, '|');
      assert false;
    }
    PlainMatches(ts, "");
    assert "" + s == s;
    FirstAlternative(Pieces(ts), s);
  }

  lemma FirstAlternative(ps: seq<Piece>, s: string)
    requires Bar in ps && MatchesAt(ps[..UpToBar(ps)], s, 0)
    ensures HasMatch([Start] + (ps + [End]), s)
  {
    var all := [Start] + (ps + [End]);
    var n := UpToBar(ps);
    assert all[1..] == ps + [End];
    UpToBarPrefix(ps, [End]);
    assert UpToBar(all) == n + 1;
    assert all[..n+1] == [Start] + ps[..n] && all[..n+1][1..] == ps[..n];
    assert MatchesAt(all[..n+1], s, 0);
  }

  lemma {:induction false} UpToBarPrefix(ps: seq<Piece>, more: seq<Piece>)
    requires Bar in ps
    ensures UpToBar(ps + more) == UpToBar(ps) < |ps|
  {
    assert (ps + more)[0] == ps[0];
    if ps[0] != Bar {
      assert ps == [ps[0]] + ps[1..] && (ps + more)[1..] == ps[1..] + more;
      UpToBarPrefix(ps[1..], more);
    }
  }

  /** Among fair patterns of one line, the conversion preserves matching exactly for those without
      bars. */
  lemma ConversionIsRightExactly(p: string)
    requires Fair(p) && '\n' !in p
    ensures Lex(Converted(p)).Lexed?
    ensures '|' !in p
       <==> forall s: string :: '\n' !in s ==> (HasMatch(Lex(Converted(p)).pieces, s) <==> GlobMatches(Tokens(p), s))
  {
    LexConverted(p);
    if '|' in p {
      var s := BarMatchesTooMuch(p);
    } else {
      forall s: string | '\n' !in s ensures HasMatch(Lex(Converted(p)).pieces, s) <==> GlobMatches(Tokens(p), s) {
        ConversionPreservesMatching(p, s);
      }
    }
  }
}
