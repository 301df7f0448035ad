/**
 * Character-level helpers shared by the models: the std::string search
 * members with their npos sentinel, splitting a string into maximal runs of
 * non-separator characters (what an istream does when it reads words, and what
 * the delimited-line reader does after its first field), and the integer
 * parsers of boost::lexical_cast<int> and .NET's int.TryParse.
 */
module Text {
  import opened Wrappers

  /** std::string::npos: the largest size_t value. */
  const NPOS: nat := 0xFFFF_FFFF_FFFF_FFFF
  /** size_t arithmetic wraps modulo this. */
  const SIZE_T_MODULUS: nat := 0x1_0000_0000_0000_0000

  /** A std::string: always shorter than npos. */
  type CppString = s: string | |s| < NPOS

  /** x + 1 in size_t arithmetic: npos + 1 wraps to 0. */
  function SizeSucc(x: nat): (r: nat)
    requires x <= NPOS
    ensures x < NPOS ==> r == x + 1
    ensures x == NPOS ==> r == 0
  {
    (x + 1) % SIZE_T_MODULUS
  }

  /** The characters an istream skips between words (isspace in the C locale). */
  const ASCII_WHITESPACE: set<char> := {' ', '\t', '\n', '\U{0B}', '\U{0C}', '\r'}

  // ---------------------------------------------------------------------------
  // std::string::find and std::string::find_first_not_of, for one character

  /** s.find(c, pos): the first index at or after pos holding c, or NPOS. */
  function Find(s: string, c: char, pos: nat): (r: nat)
    requires |s| < NPOS
    ensures r == NPOS || (pos <= r < |s| && s[r] == c)
    ensures forall i :: pos <= i < |s| && (r == NPOS || i < r) ==> s[i] != c
    decreases |s| - pos
  {
    if pos >= |s| then NPOS
    else if s[pos] == c then pos
    else Find(s, c, pos + 1)
  }

  /** Find is characterised by its contract: the first c at or after pos. */
  lemma {:induction false} FindIs(s: string, c: char, pos: nat, r: nat)
    requires |s| < NPOS && pos <= r < |s| && s[r] == c
    requires forall i :: pos <= i < r ==> s[i] != c
    ensures Find(s, c, pos) == r
    decreases r - pos
  {
    if pos < r {
      FindIs(s, c, pos + 1, r);
    }
  }

  /** s.find_first_not_of(c, pos): the first index at or after pos not holding c, or NPOS. */
  function FindFirstNotOf(s: string, c: char, pos: nat): (r: nat)
    requires |s| < NPOS
    ensures r == NPOS || (pos <= r < |s| && s[r] != c)
    ensures forall i :: pos <= i < |s| && (r == NPOS || i < r) ==> s[i] == c
    decreases |s| - pos
  {
    if pos >= |s| then NPOS
    else if s[pos] != c then pos
    else FindFirstNotOf(s, c, pos + 1)
  }

  // ---------------------------------------------------------------------------
  // Runs of non-separator characters

  /** No character of w is a separator. */
  predicate Free(w: string, seps: set<char>)
  {
    forall i :: 0 <= i < |w| ==> w[i] !in seps
  }

  /** Every character of w is a separator. */
  predicate AllSeparators(w: string, seps: set<char>)
  {
    forall i :: 0 <= i < |w| ==> w[i] in seps
  }

  /** Length of the longest separator-free prefix of s. */
  function RunLength(s: string, seps: set<char>): (n: nat)
    ensures n <= |s| && Free(s[..n], seps)
    ensures n < |s| ==> s[n] in seps
  {
    if s == [] || s[0] in seps then 0
    else
      var m := RunLength(s[1..], seps);
      assert s[..m + 1] == [s[0]] + s[1..][..m];
      m + 1
  }

  /** The maximal separator-free runs of s, in order: the words an istream reads from s. */
  function Tokens(s: string, seps: set<char>): (ts: seq<string>)
    ensures forall k :: 0 <= k < |ts| ==> ts[k] != [] && Free(ts[k], seps) && |ts[k]| <= |s|
    decreases |s|
  {
    if s == [] then []
    else if s[0] in seps then Tokens(s[1..], seps)
    else
      var n := RunLength(s, seps);
      [s[..n]] + Tokens(s[n..], seps)
  }

  /** s joined with one separator character between consecutive words. */
  function Join(ws: seq<string>, sep: char): string
  {
    if |ws| == 0 then ""
    else if |ws| == 1 then ws[0]
    else ws[0] + [sep] + Join(ws[1..], sep)
  }

  lemma {:induction false} RunLengthIs(s: string, seps: set<char>, n: nat)
    requires n <= |s| && Free(s[..n], seps)
    requires n < |s| ==> s[n] in seps
    ensures RunLength(s, seps) == n
  {
  }

  /** A slice none of whose characters is c is free of {c}. */
  lemma FreeSlice(s: string, c: char, lo: nat, hi: nat)
    requires lo <= hi <= |s|
    requires forall i :: lo <= i < hi ==> s[i] != c
    ensures Free(s[lo..hi], {c})
  {
  }

  /** A slice all of whose characters are c holds only separators of {c}. */
  lemma SeparatorSlice(s: string, c: char, lo: nat, hi: nat)
    requires lo <= hi <= |s|
    requires forall i :: lo <= i < hi ==> s[i] == c
    ensures AllSeparators(s[lo..hi], {c})
  {
  }

  /** A string of separators holds no word. */
  lemma {:induction false} TokensOfSeparators(s: string, seps: set<char>)
    requires AllSeparators(s, seps)
    ensures Tokens(s, seps) == []
    decreases |s|
  {
    if s != [] {
      TokensOfSeparators(s[1..], seps);
    }
  }

  /** A non-empty separator-free string is one word. */
  lemma TokensOfWord(w: string, seps: set<char>)
    requires w != [] && Free(w, seps)
    ensures Tokens(w, seps) == [w]
  {
    assert w[..|w|] == w;
    RunLengthIs(w, seps, |w|);
    assert w[|w|..] == [];
  }

  /**
   * Reading from position p, where s[p..f] holds only separators and s[f..l]
   * is a maximal separator-free run, yields that run first and then the words
   * after l.
   */
  lemma {:induction false} TokensFrom(s: string, seps: set<char>, p: nat, f: nat, l: nat)
    requires p <= f < l <= |s|
    requires AllSeparators(s[p..f], seps) && Free(s[f..l], seps)
    requires l < |s| ==> s[l] in seps
    ensures Tokens(s[p..], seps) == [s[f..l]] + Tokens(s[l..], seps)
    decreases f - p
  {
    if p < f {
      assert s[p..f][0] == s[p];
      assert s[p..][1..] == s[p + 1..];
      assert s[p + 1..f] == s[p..f][1..];
      TokensFrom(s, seps, p + 1, f, l);
    } else {
      var t := s[f..];
      assert t[..l - f] == s[f..l];
      RunLengthIs(t, seps, l - f);
      assert t[l - f..] == s[l..];
    }
  }

  /** Every character of a word comes from the string it was read from. */
  lemma {:induction false} TokensAreSubstrings(s: string, seps: set<char>, k: nat, i: nat)
    requires k < |Tokens(s, seps)| && i < |Tokens(s, seps)[k]|
    ensures Tokens(s, seps)[k][i] in s
    decreases |s|
  {
    var x := Tokens(s, seps)[k][i];
    if s[0] in seps {
      TokensAreSubstrings(s[1..], seps, k, i);
      var j :| 0 <= j < |s[1..]| && s[1..][j] == x;
      assert s[j + 1] == x;
    } else {
      var n := RunLength(s, seps);
      if k == 0 {
        assert x == s[i];
      } else {
        TokensAreSubstrings(s[n..], seps, k - 1, i);
        var j :| 0 <= j < |s[n..]| && s[n..][j] == x;
        assert s[n + j] == x;
      }
    }
  }

  /** A separator character splits the words of what precedes it from those of what follows. */
  lemma {:induction false} TokensSplit(a: string, c: char, b: string, seps: set<char>)
    requires c in seps
    ensures Tokens(a + [c] + b, seps) == Tokens(a, seps) + Tokens(b, seps)
    decreases |a|
  {
    var s := a + [c] + b;
    if a == [] {
      assert s[0] == c && s[1..] == b;
      assert Tokens(s, seps) == Tokens(b, seps);
    } else if a[0] in seps {
      assert s[0] == a[0] && s[1..] == a[1..] + [c] + b;
      TokensSplit(a[1..], c, b, seps);
      assert Tokens(s, seps) == Tokens(s[1..], seps);
    } else {
      var n := RunLength(a, seps);
      assert s[..n] == a[..n];
      RunLengthIs(s, seps, n);
      assert s[n..] == a[n..] + [c] + b;
      TokensSplit(a[n..], c, b, seps);
      assert Tokens(s, seps) == [a[..n]] + Tokens(s[n..], seps);
      assert Tokens(a, seps) == [a[..n]] + Tokens(a[n..], seps);
    }
  }

  /** Two separators in a row separate words exactly as one does. */
  lemma {:induction false} TokensDoubleSeparator(a: string, c: char, b: string, seps: set<char>)
    requires c in seps
    ensures Tokens(a + ([c, c] + b), seps) == Tokens(a + ([c] + b), seps)
  {
    var cb := [c] + b;
    assert a + ([c, c] + b) == a + [c] + cb;
    TokensSplit(a, c, cb, seps);
    assert a + ([c] + b) == a + [c] + b;
    TokensSplit(a, c, b, seps);
    assert cb[0] == c && cb[1..] == b;
  }

  /** Cutting a concatenation inside its first part. */
  lemma SlicesOfConcat<T>(x: seq<T>, y: seq<T>, i: nat)
    requires i <= |x|
    ensures (x + y)[..i] == x[..i] && (x + y)[i..] == x[i..] + y
  {
  }

  /** Joining non-empty separator-free words with a separator and re-reading them gives the words back. */
  lemma {:induction false} TokensOfJoin(ws: seq<string>, c: char, seps: set<char>)
    requires c in seps
    requires forall k :: 0 <= k < |ws| ==> ws[k] != [] && Free(ws[k], seps)
    ensures Tokens(Join(ws, c), seps) == ws
    decreases |ws|
  {
    if |ws| == 1 {
      TokensOfWord(ws[0], seps);
    } else if |ws| > 1 {
      TokensSplit(ws[0], c, Join(ws[1..], c), seps);
      TokensOfWord(ws[0], seps);
      TokensOfJoin(ws[1..], c, seps);
    }
  }

  // ---------------------------------------------------------------------------
  // Decimal integers

  predicate IsDigit(c: char)
  {
    '0' <= c <= '9'
  }

  predicate AllDigits(s: string)
  {
    forall i :: 0 <= i < |s| ==> IsDigit(s[i])
  }

  function DigitValue(c: char): (d: nat)
    requires IsDigit(c)
    ensures d < 10
  {
    (c as int) - ('0' as int)
  }

  function DigitChar(d: nat): (c: char)
    requires d < 10
    ensures IsDigit(c) && DigitValue(c) == d
  {
    (('0' as int) + d) as char
  }

  /** The value of a string of decimal digits, most significant first. */
  function DigitsValue(s: string): nat
    requires AllDigits(s)
    decreases |s|
  {
    if s == [] then 0 else 10 * DigitsValue(s[..|s| - 1]) + DigitValue(s[|s| - 1])
  }

  /** The decimal spelling of n without sign or leading zeros. */
  function Decimal(n: nat): (s: string)
    ensures s != [] && AllDigits(s)
  {
    if n < 10 then [DigitChar(n)] else Decimal(n / 10) + [DigitChar(n % 10)]
  }

  lemma {:induction false} DecimalValue(n: nat)
    ensures DigitsValue(Decimal(n)) == n
  {
    if n >= 10 {
      var s := Decimal(n);
      assert s[..|s| - 1] == Decimal(n / 10);
      DecimalValue(n / 10);
    }
  }

  /** An optional '+' or '-' followed by at least one decimal digit, and nothing else. */
  function ParseSignedDecimal(s: string): (r: Option<int>)
    ensures r.Some? ==> s != []
  {
    if |s| > 0 && (s[0] == '+' || s[0] == '-') then
      if |s| > 1 && AllDigits(s[1..]) then
        var v: int := DigitsValue(s[1..]);
        Some(if s[0] == '-' then -v else v)
      else None
    else if s != [] && AllDigits(s) then Some(DigitsValue(s))
    else None
  }

  const INT32_MIN: int := -0x8000_0000
  const INT32_MAX: int := 0x7FFF_FFFF

  predicate InInt32(x: int)
  {
    INT32_MIN <= x <= INT32_MAX
  }

  /** The decimal spelling of any integer, with a leading '-' when it is negative. */
  function SignedDecimal(x: int): string
  {
    if x < 0 then "-" + Decimal(-x) else Decimal(x)
  }

  /**
   * boost::lexical_cast<int>: the whole string must be a signed decimal whose
   * value fits an int; anything else (white space included) is bad_lexical_cast.
   */
  function LexicalCastInt(s: string): (r: Option<int>)
    ensures r.Some? ==> InInt32(r.value) && ParseSignedDecimal(s) == r
    ensures r.None? ==> ParseSignedDecimal(s).None? || !InInt32(ParseSignedDecimal(s).value)
  {
    match ParseSignedDecimal(s)
    case Some(v) => if InInt32(v) then Some(v) else None
    case None => None
  }

  /** Every integer, written in decimal, parses back to itself. */
  lemma ParseSignedDecimalRoundTrip(x: int)
    ensures ParseSignedDecimal(SignedDecimal(x)) == Some(x)
  {
    var s := SignedDecimal(x);
    if x < 0 {
      assert s[1..] == Decimal(-x);
      DecimalValue(-x);
    } else {
      DecimalValue(x);
    }
  }

  /** Every int, written in decimal, casts back to itself. */
  lemma LexicalCastSignedDecimal(x: int)
    requires InInt32(x)
    ensures LexicalCastInt(SignedDecimal(x)) == Some(x)
  {
    ParseSignedDecimalRoundTrip(x);
  }

  /** White space .NET number parsing skips before and after the digits (U+0009 to U+000D and U+0020). */
  predicate IsNetWhiteSpace(c: char)
  {
    c == ' ' || '\t' <= c <= '\r'
  }

  function TrimStart(s: string): (r: string)
    ensures |r| <= |s| && r == s[|s| - |r|..]
    ensures r != [] ==> !IsNetWhiteSpace(r[0])
    ensures forall i :: 0 <= i < |s| - |r| ==> IsNetWhiteSpace(s[i])
  {
    if s != [] && IsNetWhiteSpace(s[0]) then TrimStart(s[1..]) else s
  }

  function TrimEnd(s: string): (r: string)
    ensures |r| <= |s| && r == s[..|r|]
    ensures r != [] ==> !IsNetWhiteSpace(r[|r| - 1])
    ensures forall i :: |r| <= i < |s| ==> IsNetWhiteSpace(s[i])
  {
    if s != [] && IsNetWhiteSpace(s[|s| - 1]) then TrimEnd(s[..|s| - 1]) else s
  }

  /**
   * .NET int.TryParse(s, out _) with its default NumberStyles.Integer: white
   * space around an optionally signed run of digits whose value fits an int.
   */
  function TryParseInt32(s: string): (r: Option<int>)
    ensures r.Some? ==> InInt32(r.value)
  {
    LexicalCastInt(TrimEnd(TrimStart(s)))
  }

  predicate AllNetWhiteSpace(s: string)
  {
    forall i :: 0 <= i < |s| ==> IsNetWhiteSpace(s[i])
  }

  /** TrimStart removes exactly a white-space prefix in front of a non-blank start. */
  lemma {:induction false} TrimStartPadding(pad: string, s: string)
    requires AllNetWhiteSpace(pad)
    requires s != [] && !IsNetWhiteSpace(s[0])
    ensures TrimStart(pad + s) == s
    decreases |pad|
  {
    if pad == [] {
      assert pad + s == s;
    } else {
      var t := pad + s;
      assert t[0] == pad[0] && IsNetWhiteSpace(t[0]);
      assert t[1..] == pad[1..] + s;
      assert AllNetWhiteSpace(pad[1..]) by {
        forall i | 0 <= i < |pad| - 1
          ensures IsNetWhiteSpace(pad[1..][i])
        {
          assert pad[1..][i] == pad[i + 1];
        }
      }
      TrimStartPadding(pad[1..], s);
    }
  }

  /** TrimEnd removes exactly a white-space suffix behind a non-blank end. */
  lemma {:induction false} TrimEndPadding(s: string, pad: string)
    requires AllNetWhiteSpace(pad)
    requires s != [] && !IsNetWhiteSpace(s[|s| - 1])
    ensures TrimEnd(s + pad) == s
    decreases |pad|
  {
    if pad == [] {
      assert s + pad == s;
    } else {
      var t := s + pad;
      assert t[|t| - 1] == pad[|pad| - 1] && IsNetWhiteSpace(t[|t| - 1]);
      assert t[..|t| - 1] == s + pad[..|pad| - 1];
      var front := pad[..|pad| - 1];
      assert AllNetWhiteSpace(front) by {
        forall i | 0 <= i < |front|
          ensures IsNetWhiteSpace(front[i])
        {
          assert front[i] == pad[i];
        }
      }
      TrimEndPadding(s, front);
    }
  }

  /**
   * int.TryParse accepts any int written in decimal with white space on
   * either side, and yields that int.
   */
  lemma TryParseInt32Padded(left: string, x: int, right: string)
    requires AllNetWhiteSpace(left) && AllNetWhiteSpace(right)
    requires InInt32(x)
    ensures TryParseInt32(left + SignedDecimal(x) + right) == Some(x)
  {
    ParseSignedDecimalRoundTrip(x);
    TryParseInt32OfPadded(left, SignedDecimal(x), right);
  }

  /**
   * A signed decimal outside the int range is refused, with or without white
   * space around it.
   */
  lemma TryParseInt32Overflow(left: string, t: string, right: string)
    requires AllNetWhiteSpace(left) && AllNetWhiteSpace(right)
    requires ParseSignedDecimal(t).Some? && !InInt32(ParseSignedDecimal(t).value)
    ensures TryParseInt32(left + t + right) == None
  {
    TryParseInt32OfPadded(left, t, right);
  }

  /** A sign, a digit or a white-space character: what int.TryParse accepts. */
  predicate IsNumberChar(c: char)
  {
    IsDigit(c) || c == '+' || c == '-' || IsNetWhiteSpace(c)
  }

  /** A signed decimal starts with a sign or a digit, ends with a digit and holds nothing else. */
  lemma SignedDecimalShape(t: string)
    requires ParseSignedDecimal(t).Some?
    ensures t != [] && !IsNetWhiteSpace(t[0]) && !IsNetWhiteSpace(t[|t| - 1])
    ensures forall i :: 0 <= i < |t| ==> IsNumberChar(t[i])
  {
    if t[0] == '+' || t[0] == '-' {
      var digits := t[1..];
      assert AllDigits(digits);
      assert t[|t| - 1] == digits[|digits| - 1];
      forall i | 1 <= i < |t|
        ensures IsDigit(t[i])
      {
        assert t[i] == digits[i - 1];
      }
    }
  }

  /**
   * Whatever the white space around it, a signed decimal is read as
   * lexical_cast<int> reads it alone: its value when that fits an int, and
   * None otherwise.
   */
  lemma TryParseInt32OfPadded(left: string, t: string, right: string)
    requires AllNetWhiteSpace(left) && AllNetWhiteSpace(right)
    requires ParseSignedDecimal(t).Some?
    ensures TryParseInt32(left + t + right) == LexicalCastInt(t)
  {
    SignedDecimalShape(t);
    assert left + t + right == left + (t + right);
    TrimStartPadding(left, t + right);
    TrimEndPadding(t, right);
  }

  lemma JoinAssociates(a: string, b: string, c: string)
    ensures a + (b + c) == a + b + c
  {
  }

  /** TrimStart cuts off a prefix of white space. */
  lemma TrimStartSplit(s: string)
    ensures var front := TrimStart(s);
      s == s[..|s| - |front|] + front && AllNetWhiteSpace(s[..|s| - |front|])
  {
    var front := TrimStart(s);
    var left := s[..|s| - |front|];
    assert s == left + s[|s| - |front|..];
    forall i | 0 <= i < |left|
      ensures IsNetWhiteSpace(left[i])
    {
      assert left[i] == s[i];
    }
  }

  /** TrimEnd cuts off a suffix of white space. */
  lemma TrimEndSplit(s: string)
    ensures var back := TrimEnd(s);
      s == back + s[|back|..] && AllNetWhiteSpace(s[|back|..])
  {
    var back := TrimEnd(s);
    var right := s[|back|..];
    assert s == s[..|back|] + right;
    forall i | 0 <= i < |right|
      ensures IsNetWhiteSpace(right[i])
    {
      assert right[i] == s[|back| + i];
    }
  }

  /**
   * Conversely, every text int.TryParse accepts is a signed decimal with
   * white space on either side, and the result is its value.
   */
  lemma TryParseInt32Accepted(s: string) returns (left: string, t: string, right: string)
    requires TryParseInt32(s).Some?
    ensures s == left + t + right
    ensures AllNetWhiteSpace(left) && AllNetWhiteSpace(right)
    ensures ParseSignedDecimal(t) == TryParseInt32(s)
  {
    var front := TrimStart(s);
    t := TrimEnd(front);
    left := s[..|s| - |front|];
    right := front[|t|..];
    TrimStartSplit(s);
    TrimEndSplit(front);
    JoinAssociates(left, t, right);
  }

  /** int.TryParse accepts only texts made of signs, digits and white space. */
  lemma TryParseInt32Characters(s: string)
    ensures TryParseInt32(s).Some? ==> forall i :: 0 <= i < |s| ==> IsNumberChar(s[i])
  {
    if TryParseInt32(s).Some? {
      var left, t, right := TryParseInt32Accepted(s);
      SignedDecimalShape(t);
      forall i | 0 <= i < |s|
        ensures IsNumberChar(s[i])
      {
        if i < |left| {
          assert s[i] == left[i];
        } else if i < |left| + |t| {
          assert s[i] == t[i - |left|];
        } else {
          assert s[i] == right[i - |left| - |t|];
        }
      }
    }
  }

  /** A character other than a sign, a digit or white space makes int.TryParse fail. */
  lemma TryParseInt32Refuses(s: string, i: int)
    requires 0 <= i < |s| && !IsNumberChar(s[i])
    ensures TryParseInt32(s) == None
  {
    TryParseInt32Characters(s);
  }
}
