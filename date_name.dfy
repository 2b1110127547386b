/**
 * The date-folder test `re.match(r'^\d{4}-\d{2}-\d{2}$', name)`, modelled as a tiny
 * anchored matcher over a pattern of repeated atoms, and its plain meaning.
 */
module DateName {

  /** One pattern atom: `\d` (an ASCII digit) or a literal character. */
  datatype Atom = Digit | Char(c: char)

  /** An atom repeated exactly `count` times, as `\d{4}` or a single `-`. */
  datatype Piece = Repeat(atom: Atom, count: nat)

  /** `\d{4}-\d{2}-\d{2}` */
  const DatePattern: seq<Piece> :=
    [Repeat(Digit, 4), Repeat(Char('-'), 1), Repeat(Digit, 2), Repeat(Char('-'), 1), Repeat(Digit, 2)]

  predicate IsAsciiDigit(c: char)
  {
    '0' <= c <= '9'
  }

  predicate AtomMatches(a: Atom, c: char)
  {
    match a
    case Digit => IsAsciiDigit(c)
    case Char(x) => c == x
  }

  /** The pieces, in order, consume all of `s`. */
  predicate MatchesAll(pat: seq<Piece>, s: string)
    decreases |pat|
  {
    if pat == [] then s == []
    else
      var n := pat[0].count;
      && n <= |s|
      && (forall i :: 0 <= i < n ==> AtomMatches(pat[0].atom, s[i]))
      && MatchesAll(pat[1..], s[n..])
  }

  /**
   * `re.match('^' + pat + '$', s)`: `^` anchors at the start; Python's `$` matches at the
   * very end or just before a newline that ends the string.
   */
  predicate AnchoredMatch(pat: seq<Piece>, s: string)
  {
    || MatchesAll(pat, s)
    || (|s| > 0 && s[|s| - 1] == '\n' && MatchesAll(pat, s[..|s| - 1]))
  }

  /** The test the walk applies to every directory's base name. */
  predicate IsDateName(s: string)
  {
    AnchoredMatch(DatePattern, s)
  }

  /** Four digits, `-`, two digits, `-`, two digits, and nothing else. */
  predicate DateShape(s: string)
  {
    && |s| == 10
    && IsAsciiDigit(s[0]) && IsAsciiDigit(s[1]) && IsAsciiDigit(s[2]) && IsAsciiDigit(s[3])
    && s[4] == '-'
    && IsAsciiDigit(s[5]) && IsAsciiDigit(s[6])
    && s[7] == '-'
    && IsAsciiDigit(s[8]) && IsAsciiDigit(s[9])
  }

  /** The number of characters a pattern consumes. */
  function Width(pat: seq<Piece>): nat
  {
    if pat == [] then 0 else pat[0].count + Width(pat[1..])
  }

  /** A full match consumes exactly the pattern's width. */
  lemma {:induction false} MatchLength(pat: seq<Piece>, s: string)
    requires MatchesAll(pat, s)
    ensures |s| == Width(pat)
    decreases |pat|
  {
    if pat != [] {
      MatchLength(pat[1..], s[pat[0].count..]);
    }
  }

  /** The matcher accepts exactly the strings of the date shape. */
  lemma {:induction false} MatchesDatePattern(s: string)
    ensures MatchesAll(DatePattern, s) <==> DateShape(s)
  {
    var p1 := DatePattern[1..];
    var p2 := p1[1..];
    var p3 := p2[1..];
    var p4 := p3[1..];
    assert p1 == [Repeat(Char('-'), 1), Repeat(Digit, 2), Repeat(Char('-'), 1), Repeat(Digit, 2)];
    assert p2 == [Repeat(Digit, 2), Repeat(Char('-'), 1), Repeat(Digit, 2)];
    assert p3 == [Repeat(Char('-'), 1), Repeat(Digit, 2)];
    assert p4 == [Repeat(Digit, 2)];
    assert p4[1..] == [];
    assert Width(DatePattern) == 10;
    if |s| == 10 {
      var s1 := s[4..];
      var s2 := s1[1..];
      var s3 := s2[2..];
      var s4 := s3[1..];
      var s5 := s4[2..];
      assert MatchesAll(p4, s4) <==> IsAsciiDigit(s4[0]) && IsAsciiDigit(s4[1]);
      assert MatchesAll(p3, s3) <==> s3[0] == '-' && MatchesAll(p4, s4);
      assert MatchesAll(p2, s2) <==> IsAsciiDigit(s2[0]) && IsAsciiDigit(s2[1]) && MatchesAll(p3, s3);
      assert MatchesAll(p1, s1) <==> s1[0] == '-' && MatchesAll(p2, s2);
      assert MatchesAll(DatePattern, s) <==>
        IsAsciiDigit(s[0]) && IsAsciiDigit(s[1]) && IsAsciiDigit(s[2]) && IsAsciiDigit(s[3]) && MatchesAll(p1, s1);
    } else if MatchesAll(DatePattern, s) {
      MatchLength(DatePattern, s);
    }
  }

  /**
   * A directory name counts as a date folder exactly when it is four digits, `-`, two
   * digits, `-`, two digits, optionally followed by one final newline (Python's `$`).
   */
  lemma DateNameMeaning(s: string)
    ensures IsDateName(s) <==> DateShape(s) || (|s| == 11 && s[10] == '\n' && DateShape(s[..10]))
  {
    MatchesDatePattern(s);
    if |s| > 0 {
      MatchesDatePattern(s[..|s| - 1]);
    }
  }

  /** A name whose first character is not a digit is never a date name. */
  lemma NotDateName(s: string)
    requires s == [] || !IsAsciiDigit(s[0])
    ensures !IsDateName(s)
  {
    DateNameMeaning(s);
    if |s| == 11 {
      assert s[..10][0] == s[0];
    }
  }
}
