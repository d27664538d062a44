/**
 * The few pieces of Python's string and integer formatting that the program
 * relies on: `str.lower`, `str.strip`, `str.title`, `str(int)` and the `,`
 * format specifier (thousands separators).
 */
module PyText {

  // ---------------------------------------------------------------------
  // Characters
  // ---------------------------------------------------------------------

  predicate IsAsciiUpper(c: char) { 'A' <= c <= 'Z' }

  predicate IsAsciiLower(c: char) { 'a' <= c <= 'z' }

  /** The characters the model treats as cased (the ones `str.title` touches). */
  predicate IsCased(c: char) { IsAsciiUpper(c) || IsAsciiLower(c) }

  /**
   * Python's `str.isspace`: the ASCII whitespace and separator controls,
   * NEL, NO-BREAK SPACE and the Unicode space separators.
   */
  predicate IsSpace(c: char)
  {
    || c == ' '
    || ('\t' <= c <= '\r')
    || ('\U{1C}' <= c <= '\U{1F}')
    || c == '\U{85}' || c == '\U{A0}' || c == '\U{1680}'
    || ('\U{2000}' <= c <= '\U{200A}')
    || c == '\U{2028}' || c == '\U{2029}' || c == '\U{202F}'
    || c == '\U{205F}' || c == '\U{3000}'
  }

  /**
   * Lower-case mapping of one character: the ASCII capitals and the KELVIN
   * SIGN, the one other character whose lower-case form is a single ASCII
   * letter.
   */
  function LowerChar(c: char): (d: char)
    ensures IsAsciiUpper(c) ==> IsAsciiLower(d) && UpperChar(d) == c
    ensures c == '\U{212A}' ==> d == 'k'
    ensures !IsAsciiUpper(c) && c != '\U{212A}' ==> d == c
  {
    if IsAsciiUpper(c) then (c as int + 32) as char
    else if c == '\U{212A}' then 'k'
    else c
  }

  function UpperChar(c: char): (d: char)
    ensures IsAsciiLower(c) ==> IsAsciiUpper(d) && d as int + 32 == c as int
    ensures !IsAsciiLower(c) ==> d == c
  {
    if IsAsciiLower(c) then (c as int - 32) as char else c
  }

  // ---------------------------------------------------------------------
  // str.lower, str.strip
  // ---------------------------------------------------------------------

  /** `s.lower()`. */
  function Lower(s: string): string
  {
    seq(|s|, i requires 0 <= i < |s| => LowerChar(s[i]))
  }

  /** Index of the first non-space character of `s` (or `|s|`). */
  function SkipSpaces(s: string, i: nat): (k: nat)
    requires i <= |s|
    ensures i <= k <= |s|
    ensures forall j :: i <= j < k ==> IsSpace(s[j])
    ensures k < |s| ==> !IsSpace(s[k])
    decreases |s| - i
  {
    if i < |s| && IsSpace(s[i]) then SkipSpaces(s, i + 1) else i
  }

  /** One past the last non-space character of `s[..j]` (or `lo`). */
  function TrimEnd(s: string, lo: nat, j: nat): (k: nat)
    requires lo <= j <= |s|
    ensures lo <= k <= j
    ensures forall m :: k <= m < j ==> IsSpace(s[m])
    ensures k > lo ==> !IsSpace(s[k - 1])
    decreases j
  {
    if j > lo && IsSpace(s[j - 1]) then TrimEnd(s, lo, j - 1) else j
  }

  /** `s.strip()`: drops leading and trailing whitespace. */
  function Strip(s: string): string
  {
    var a := SkipSpaces(s, 0);
    s[a..TrimEnd(s, a, |s|)]
  }

  /** What `strip` removes is whitespace at either end, and what it keeps
      neither starts nor ends with whitespace. */
  lemma StripRemovesOnlySpace(s: string)
    ensures exists a, b ::
      && 0 <= a <= b <= |s| && Strip(s) == s[a..b]
      && (forall m :: 0 <= m < a ==> IsSpace(s[m]))
      && (forall m :: b <= m < |s| ==> IsSpace(s[m]))
    ensures Strip(s) != [] ==> !IsSpace(Strip(s)[0]) && !IsSpace(Strip(s)[|Strip(s)| - 1])
  {
    var a := SkipSpaces(s, 0);
    var b := TrimEnd(s, a, |s|);
    assert Strip(s) == s[a..b];
  }

  // ---------------------------------------------------------------------
  // str.title
  // ---------------------------------------------------------------------

  /**
   * `str.title` continued from a position whose previous character was
   * (`afterCased`) or was not cased: a cased character that follows an
   * uncased one is upper-cased, one that follows a cased one lower-cased,
   * and every other character is kept.
   */
  function TitleFrom(s: string, afterCased: bool): (r: string)
    decreases |s|
  {
    if s == [] then []
    else
      var c := s[0];
      var d := if !IsCased(c) then c else if afterCased then LowerChar(c) else UpperChar(c);
      [d] + TitleFrom(s[1..], IsCased(c))
  }

  /** `s.title()`. */
  function Title(s: string): string
  {
    TitleFrom(s, false)
  }

  /** Whether the last character of `a` is cased, starting from `afterCased`. */
  function CasedAfter(a: string, afterCased: bool): bool
  {
    if a == [] then afterCased else IsCased(a[|a| - 1])
  }

  /** Title-casing works left to right: a split point only passes on whether
      the character before it was cased. */
  lemma {:induction false} TitleFromAppend(a: string, b: string, afterCased: bool)
    ensures TitleFrom(a + b, afterCased) == TitleFrom(a, afterCased) + TitleFrom(b, CasedAfter(a, afterCased))
    decreases |a|
  {
    if a == [] {
      assert a + b == b;
    } else {
      assert (a + b)[0] == a[0];
      assert (a + b)[1..] == a[1..] + b;
      TitleFromAppend(a[1..], b, IsCased(a[0]));
      if |a| > 1 {
        assert a[1..][|a[1..]| - 1] == a[|a| - 1];
      }
    }
  }

  /** Lower-case letters after a cased character stay as they are. */
  lemma {:induction false} TitleFromLowerRun(s: string)
    requires forall i :: 0 <= i < |s| ==> IsAsciiLower(s[i])
    ensures TitleFrom(s, true) == s
    decreases |s|
  {
    if s != [] {
      TitleFromLowerRun(s[1..]);
    }
  }

  /** Title-casing changes case only: it keeps length, cased-ness and the
      lower-case form of every character. */
  lemma {:induction false} TitleFromKeepsLetters(s: string, afterCased: bool)
    ensures |TitleFrom(s, afterCased)| == |s|
    ensures forall i :: 0 <= i < |s| ==>
      IsCased(TitleFrom(s, afterCased)[i]) == IsCased(s[i])
      && LowerChar(TitleFrom(s, afterCased)[i]) == LowerChar(s[i])
  {
    if s != [] {
      TitleFromKeepsLetters(s[1..], IsCased(s[0]));
    }
  }

  /** `s.title().lower() == s.lower()`. */
  lemma TitleOnlyChangesCase(s: string)
    ensures Lower(Title(s)) == Lower(s)
  {
    TitleFromKeepsLetters(s, false);
  }

  /** Title-casing a title-cased string changes nothing. */
  lemma {:induction false} TitleFromIdempotent(s: string, afterCased: bool)
    ensures TitleFrom(TitleFrom(s, afterCased), afterCased) == TitleFrom(s, afterCased)
  {
    if s != [] {
      TitleFromIdempotent(s[1..], IsCased(s[0]));
    }
  }

  lemma TitleIdempotent(s: string)
    ensures Title(Title(s)) == Title(s)
  {
    TitleFromIdempotent(s, false);
  }

  // ---------------------------------------------------------------------
  // str(int)
  // ---------------------------------------------------------------------

  predicate IsDigit(c: char) { '0' <= c <= '9' }

  predicate AllDigits(s: string) { forall i :: 0 <= i < |s| ==> IsDigit(s[i]) }

  function DigitChar(d: nat): (c: char)
    requires d < 10
    ensures IsDigit(c) && (c == '0' <==> d == 0)
  {
    ('0' as int + d) as char
  }

  function DigitValue(c: char): (d: nat)
    requires IsDigit(c)
    ensures d < 10 && DigitChar(d) == c
  {
    c as int - '0' as int
  }

  /** A shortest decimal numeral: digits only, no leading zero. */
  predicate IsNumeral(s: string)
  {
    |s| >= 1 && AllDigits(s) && (|s| > 1 ==> s[0] != '0')
  }

  /** `str(n)` for a natural number. */
  function NatToDecimal(n: nat): (s: string)
    ensures IsNumeral(s)
    decreases n
  {
    if n < 10 then [DigitChar(n)]
    else NatToDecimal(n / 10) + [DigitChar(n % 10)]
  }

  /** `str(i)` for any integer. */
  function IntToDecimal(i: int): string
  {
    if i < 0 then "-" + NatToDecimal(-i) else NatToDecimal(i)
  }

  /** `int(s)` for a string of digits: the partner of NatToDecimal. */
  function ParseDecimal(s: string): nat
    requires AllDigits(s)
    decreases |s|
  {
    if s == [] then 0 else 10 * ParseDecimal(s[..|s| - 1]) + DigitValue(s[|s| - 1])
  }

  lemma {:induction false} ParseNatToDecimal(n: nat)
    ensures ParseDecimal(NatToDecimal(n)) == n
    decreases n
  {
    if n >= 10 {
      var s := NatToDecimal(n);
      assert s[..|s| - 1] == NatToDecimal(n / 10);
      ParseNatToDecimal(n / 10);
    }
  }

  lemma {:induction false} ParsePositive(s: string)
    requires AllDigits(s) && s != [] && s[0] != '0'
    ensures ParseDecimal(s) > 0
    decreases |s|
  {
    if |s| > 1 {
      ParsePositive(s[..|s| - 1]);
    }
  }

  /** Every shortest numeral is the rendering of the number it denotes. */
  lemma {:induction false} NatToDecimalParse(s: string)
    requires IsNumeral(s)
    ensures NatToDecimal(ParseDecimal(s)) == s
    decreases |s|
  {
    if |s| > 1 {
      var p := s[..|s| - 1];
      ParsePositive(p);
      NatToDecimalParse(p);
      assert s == p + [s[|s| - 1]];
    }
  }

  // ---------------------------------------------------------------------
  // format(i, ",")
  // ---------------------------------------------------------------------

  /** Inserts a comma before every block of three digits, counted from the right. */
  function Group(d: string): string
    decreases |d|
  {
    if |d| <= 3 then d else Group(d[..|d| - 3]) + "," + d[|d| - 3..]
  }

  /** `format(i, ",")` (`f"{i:,}"`) for an integer. */
  function WithThousands(i: int): string
  {
    if i < 0 then "-" + Group(NatToDecimal(-i)) else Group(NatToDecimal(i))
  }

  predicate NoCommas(s: string) { forall i :: 0 <= i < |s| ==> s[i] != ',' }

  /** The string without its commas. */
  function StripCommas(s: string): (r: string)
    ensures NoCommas(r)
    decreases |s|
  {
    if s == [] then []
    else (if s[0] == ',' then [] else [s[0]]) + StripCommas(s[1..])
  }

  lemma {:induction false} StripCommasAppend(a: string, b: string)
    ensures StripCommas(a + b) == StripCommas(a) + StripCommas(b)
    decreases |a|
  {
    if a != [] {
      assert (a + b)[0] == a[0];
      assert (a + b)[1..] == a[1..] + b;
      StripCommasAppend(a[1..], b);
    } else {
      assert a + b == b;
    }
  }

  lemma {:induction false} StripCommasNone(s: string)
    requires NoCommas(s)
    ensures StripCommas(s) == s
    decreases |s|
  {
    if s != [] {
      StripCommasNone(s[1..]);
    }
  }

  /** Removing the separators gives the digits back. */
  lemma {:induction false} StripGroup(d: string)
    requires NoCommas(d)
    ensures StripCommas(Group(d)) == d
    decreases |d|
  {
    if |d| <= 3 {
      StripCommasNone(d);
    } else {
      var p, t := d[..|d| - 3], d[|d| - 3..];
      var g := Group(p);
      assert Group(d) == (g + ",") + t;
      StripGroup(p);
      StripCommasAppend(g + ",", t);
      StripCommasAppend(g, ",");
      StripCommasNone(t);
      assert StripCommas(",") == [];
      assert p + t == d;
    }
  }

  /** A numeral of `n` digits gets `(n - 1) / 3` separators. */
  lemma {:induction false} GroupLength(d: string)
    requires |d| >= 1
    ensures |Group(d)| == |d| + (|d| - 1) / 3
    decreases |d|
  {
    if |d| > 3 {
      GroupLength(d[..|d| - 3]);
    }
  }

  /**
   * The shape of a grouped numeral: counting from the right end, every
   * fourth character is a comma and no other is, and the leftmost group is
   * not empty. So every group but the first has exactly three digits and
   * the first has one to three.
   */
  predicate CommaEveryFourth(s: string)
  {
    && |s| % 4 != 0
    && forall i :: 0 <= i < |s| ==> (s[i] == ',' <==> (|s| - i) % 4 == 0)
  }

  /** Appending a comma and a group of three keeps the shape. */
  lemma AppendGroupKeepsShape(g: string, t: string)
    requires CommaEveryFourth(g)
    requires |t| == 3 && NoCommas(t)
    ensures CommaEveryFourth((g + ",") + t)
  {
    var s := (g + ",") + t;
    assert |s| == |g| + 4;
    forall i | 0 <= i < |s|
      ensures s[i] == ',' <==> (|s| - i) % 4 == 0
    {
      if i < |g| {
        assert s[i] == g[i];
        assert |s| - i == (|g| - i) + 4;
      } else if i == |g| {
        assert |s| - i == 4;
      } else {
        assert s[i] == t[i - |g| - 1];
        assert 1 <= |s| - i <= 3;
      }
    }
  }

  lemma {:induction false} GroupShape(d: string)
    requires |d| >= 1 && NoCommas(d)
    ensures CommaEveryFourth(Group(d))
    decreases |d|
  {
    if |d| > 3 {
      var p, t := d[..|d| - 3], d[|d| - 3..];
      GroupShape(p);
      assert Group(d) == (Group(p) + ",") + t;
      AppendGroupKeepsShape(Group(p), t);
    }
  }

  /** `format(n, ",")` without its commas is `str(n)`. */
  lemma WithThousandsRoundTrip(i: int)
    ensures StripCommas(WithThousands(i)) == IntToDecimal(i)
  {
    var n: nat := if i < 0 then -i else i;
    StripGroup(NatToDecimal(n));
    if i < 0 {
      StripCommasAppend("-", Group(NatToDecimal(n)));
    }
  }

  /** `format(n, ",")` for a natural number is a grouped numeral of digits. */
  lemma WithThousandsShape(n: nat)
    ensures |WithThousands(n)| == |NatToDecimal(n)| + (|NatToDecimal(n)| - 1) / 3
    ensures CommaEveryFourth(WithThousands(n))
    ensures forall i :: 0 <= i < |WithThousands(n)| && WithThousands(n)[i] != ',' ==> IsDigit(WithThousands(n)[i])
  {
    var d := NatToDecimal(n);
    GroupLength(d);
    GroupShape(d);
    GroupChars(d);
  }

  /** Grouping adds commas and nothing else. */
  lemma {:induction false} GroupChars(d: string)
    ensures forall i :: 0 <= i < |Group(d)| ==> Group(d)[i] == ',' || Group(d)[i] in d
    decreases |d|
  {
    if |d| > 3 {
      var p, t := d[..|d| - 3], d[|d| - 3..];
      GroupChars(p);
      var g := Group(p);
      assert Group(d) == (g + ",") + t;
      forall i | 0 <= i < |Group(d)|
        ensures Group(d)[i] == ',' || Group(d)[i] in d
      {
        if i < |g| {
          assert Group(d)[i] == g[i];
          assert forall x :: x in p ==> x in d;
        } else if i > |g| {
          assert Group(d)[i] == d[|d| - 3 + (i - |g| - 1)];
        }
      }
    }
  }

  lemma DecimalOfMillion()
    ensures NatToDecimal(1000000) == "1000000"
  {
    assert NatToDecimal(1000) == "1000";
  }

  /** `f"{500000:,}"` is `"500,000"`. */
  lemma ThousandsOfHalfMillion()
    ensures WithThousands(500000) == "500,000"
  {
    assert NatToDecimal(500) == "500";
    assert NatToDecimal(500000) == "500000";
    assert Group("500000") == "500,000";
  }

  /** `f"{1000000:,}"` is `"1,000,000"`. */
  lemma ThousandsOfMillion()
    ensures WithThousands(1000000) == "1,000,000"
  {
    DecimalOfMillion();
    assert Group("1000") == "1,000";
    assert Group("1000000") == "1,000,000";
  }

  /** A negative number keeps its sign in front of the first group. */
  lemma ThousandsOfNegative()
    ensures WithThousands(-1234) == "-1,234"
  {
    assert NatToDecimal(1234) == "1234";
    assert Group("1234") == "1,234";
  }
}
