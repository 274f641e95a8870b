/** Python's `str(n)` for integers and `int(s)` for strings: surrounding whitespace, an
    optional sign, and decimal digits that single underscores may group. */
module Numerals {
  import opened Common

  predicate IsDigit(c: char)
  {
    '0' <= c <= '9'
  }

  function DigitChar(d: nat): (c: char)
    requires d < 10
    ensures IsDigit(c) && c as int - '0' as int == d
  {
    ('0' as int + d) as char
  }

  /** The decimal digits of `n`, most significant first, without leading zeros. */
  function Digits(n: nat): (s: string)
    ensures |s| >= 1
    decreases n
  {
    if n < 10 then [DigitChar(n)] else Digits(n / 10) + [DigitChar(n % 10)]
  }

  /** `str(n)` for a Python int. */
  function IntToString(n: int): string
  {
    if n < 0 then "-" + Digits(-n) else Digits(n)
  }

  /** The value of a non-empty string of decimal digits (leading zeros allowed, as in `int('007')`). */
  function ParseDigits(s: string): Option<nat>
    decreases |s|
  {
    if |s| == 0 || !IsDigit(s[|s| - 1]) then None
    else if |s| == 1 then Some(s[0] as int - '0' as int)
    else match ParseDigits(s[..|s| - 1])
      case None => None
      case Some(v) => Some(v * 10 + (s[|s| - 1] as int - '0' as int))
  }

  /** Python's `str.isspace()`: the characters `int()` strips from both ends. */
  predicate IsSpace(c: char)
  {
    var n := c as int;
    n == 0x20 || 0x09 <= n <= 0x0d || 0x1c <= n <= 0x1f || n == 0x85 || n == 0xa0 ||
    n == 0x1680 || 0x2000 <= n <= 0x200a || n == 0x2028 || n == 0x2029 || n == 0x202f ||
    n == 0x205f || n == 0x3000
  }

  /** `s.lstrip()`. */
  function StripLeft(s: string): (r: string)
    ensures |r| <= |s|
    decreases |s|
  {
    if |s| > 0 && IsSpace(s[0]) then StripLeft(s[1..]) else s
  }

  /** `s.rstrip()`. */
  function StripRight(s: string): (r: string)
    ensures |r| <= |s|
    decreases |s|
  {
    if |s| > 0 && IsSpace(s[|s| - 1]) then StripRight(s[..|s| - 1]) else s
  }

  /** `s.strip()`. */
  function Strip(s: string): string
  {
    StripRight(StripLeft(s))
  }

  /** Decimal digits, where single underscores may sit between two digits (`2_031`). */
  predicate Grouped(s: string)
  {
    && |s| > 0 && IsDigit(s[0]) && IsDigit(s[|s| - 1])
    && (forall i :: 0 <= i < |s| ==> IsDigit(s[i]) || s[i] == '_')
    && (forall i :: 0 <= i < |s| - 1 && s[i] == '_' ==> s[i + 1] != '_')
  }

  /** The digits of a grouped numeral, without its underscores. */
  function Ungroup(s: string): (r: string)
    ensures |r| <= |s|
    decreases |s|
  {
    if |s| == 0 then [] else (if s[0] == '_' then [] else [s[0]]) + Ungroup(s[1..])
  }

  /** `lstrip` drops exactly the leading whitespace: what remains is a suffix that does not
      start with whitespace, and everything dropped is whitespace. */
  lemma {:induction false} StripLeftSpec(s: string)
    ensures var r := StripLeft(s);
      && r == s[|s| - |r|..]
      && (|r| > 0 ==> !IsSpace(r[0]))
      && (forall i :: 0 <= i < |s| - |r| ==> IsSpace(s[i]))
    decreases |s|
  {
    if |s| > 0 && IsSpace(s[0]) {
      StripLeftSpec(s[1..]);
      var r := StripLeft(s);
      forall i | 0 <= i < |s| - |r| ensures IsSpace(s[i]) {
        if i > 0 {
          assert s[i] == s[1..][i - 1];
        }
      }
    }
  }

  /** `rstrip` drops exactly the trailing whitespace: what remains is a prefix that does not
      end with whitespace, and everything dropped is whitespace. */
  lemma {:induction false} StripRightSpec(s: string)
    ensures var r := StripRight(s);
      && r == s[..|r|]
      && (|r| > 0 ==> !IsSpace(r[|r| - 1]))
      && (forall i :: |r| <= i < |s| ==> IsSpace(s[i]))
    decreases |s|
  {
    if |s| > 0 && IsSpace(s[|s| - 1]) {
      var t := s[..|s| - 1];
      StripRightSpec(t);
      var r := StripRight(s);
      assert r == t[..|r|];
      forall i | |r| <= i < |s| ensures IsSpace(s[i]) {
        if i < |s| - 1 {
          assert s[i] == t[i];
        }
      }
    }
  }

  /** Ungrouping drops every underscore and keeps the other characters, so a grouped
      numeral ungroups to decimal digits only. */
  lemma {:induction false} UngroupSpec(s: string)
    ensures forall i :: 0 <= i < |Ungroup(s)| ==> Ungroup(s)[i] != '_' && Ungroup(s)[i] in s
    ensures (forall i :: 0 <= i < |s| ==> IsDigit(s[i]) || s[i] == '_') ==>
      forall i :: 0 <= i < |Ungroup(s)| ==> IsDigit(Ungroup(s)[i])
    decreases |s|
  {
    if |s| > 0 {
      UngroupSpec(s[1..]);
      var head: string := if s[0] == '_' then [] else [s[0]];
      assert Ungroup(s) == head + Ungroup(s[1..]);
      forall i | 0 <= i < |Ungroup(s)| ensures Ungroup(s)[i] != '_' && Ungroup(s)[i] in s {
        if i >= |head| {
          assert Ungroup(s)[i] == Ungroup(s[1..])[i - |head|];
        }
      }
      if forall i :: 0 <= i < |s| ==> IsDigit(s[i]) || s[i] == '_' {
        assert forall i :: 0 <= i < |s[1..]| ==> s[1..][i] == s[i + 1];
        forall i | 0 <= i < |Ungroup(s)| ensures IsDigit(Ungroup(s)[i]) {
          if i >= |head| {
            assert Ungroup(s)[i] == Ungroup(s[1..])[i - |head|];
          }
        }
      }
    }
  }

  /** The value of a numeral after its sign: None unless it is grouped digits. */
  function Unsigned(body: string): Option<nat>
  {
    if Grouped(body) then ParseDigits(Ungroup(body)) else None
  }

  /** `int(s)` for a str; None stands for the ValueError it raises. Whitespace at both ends
      is ignored, then an optional '+' or '-' comes directly before the grouped digits.
      Underscores between digits are accepted as from Python 3.6. */
  function ParseInt(s: string): Option<int>
  {
    var t := Strip(s);
    if |t| > 0 && (t[0] == '-' || t[0] == '+') then
      match Unsigned(t[1..])
      case None => None
      case Some(v) => Some(if t[0] == '-' then 0 - v as int else v as int)
    else
      match Unsigned(t)
      case None => None
      case Some(v) => Some(v as int)
  }

  lemma {:induction false} DigitsAreDigits(n: nat)
    ensures forall i :: 0 <= i < |Digits(n)| ==> IsDigit(Digits(n)[i])
    decreases n
  {
    if n >= 10 {
      DigitsAreDigits(n / 10);
    }
  }

  lemma {:induction false} ParseDigitsOfDigits(n: nat)
    ensures ParseDigits(Digits(n)) == Some(n)
    decreases n
  {
    if n >= 10 {
      var s := Digits(n);
      assert s[..|s| - 1] == Digits(n / 10);
      ParseDigitsOfDigits(n / 10);
    }
  }

  /** A string of digits has no underscores to drop. */
  lemma {:induction false} UngroupDigits(s: string)
    requires forall i :: 0 <= i < |s| ==> IsDigit(s[i])
    ensures Ungroup(s) == s
    decreases |s|
  {
    if |s| > 0 {
      UngroupDigits(s[1..]);
      assert s == [s[0]] + s[1..];
    }
  }

  /** `str(n)` of a natural number reads back through the digit part of `int`. */
  lemma UnsignedOfDigits(n: nat)
    ensures Unsigned(Digits(n)) == Some(n)
  {
    DigitsAreDigits(n);
    UngroupDigits(Digits(n));
    ParseDigitsOfDigits(n);
  }

  /** Reading back what `str` wrote gives the same integer. */
  lemma ParseIntRoundTrip(n: int)
    ensures ParseInt(IntToString(n)) == Some(n)
  {
    var s := IntToString(n);
    if n < 0 {
      UnsignedOfDigits(-n);
      DigitsAreDigits(-n);
      assert s[1..] == Digits(-n);
      assert s[|s| - 1] == Digits(-n)[|Digits(-n)| - 1];
    } else {
      UnsignedOfDigits(n);
      DigitsAreDigits(n);
    }
    assert StripLeft(s) == s;
    assert Strip(s) == s;
  }

  /** Leading whitespace is skipped. */
  lemma ParseIntSkipsLeadingSpace(c: char, s: string)
    requires IsSpace(c)
    ensures ParseInt([c] + s) == ParseInt(s)
  {
    assert ([c] + s)[1..] == s;
  }

  /** Stripping from the left commutes with appending a character after a non-blank text. */
  lemma {:induction false} StripLeftSnoc(s: string, c: char)
    ensures StripLeft(s) != [] ==> StripLeft(s + [c]) == StripLeft(s) + [c]
    ensures StripLeft(s) == [] && IsSpace(c) ==> StripLeft(s + [c]) == []
    decreases |s|
  {
    if |s| == 0 {
      assert s + [c] == [c];
      assert [c][1..] == [];
    } else {
      assert (s + [c])[1..] == s[1..] + [c];
      StripLeftSnoc(s[1..], c);
    }
  }

  /** Trailing whitespace is skipped. */
  lemma ParseIntSkipsTrailingSpace(s: string, c: char)
    requires IsSpace(c)
    ensures ParseInt(s + [c]) == ParseInt(s)
  {
    StripLeftSnoc(s, c);
    var t := StripLeft(s);
    if t != [] {
      assert (t + [c])[..|t + [c]| - 1] == t;
    }
  }

  /** `int("2031")` is 2031, the bl2030 runner's port. */
  lemma ParseInt2031()
    ensures ParseInt("2031") == Some(2031)
  {
    ParseIntRoundTrip(2031);
    assert IntToString(2031) == "2031";
  }

  /** Surrounding whitespace is accepted: `int(" 2031")` and `int("2031\\n")` are 2031. */
  lemma ParseIntSpaceExamples()
    ensures ParseInt(" 2031") == Some(2031) && ParseInt("2031\n") == Some(2031)
  {
    ParseInt2031();
    ParseIntSkipsLeadingSpace(' ', "2031");
    assert " 2031" == [' '] + "2031";
    ParseIntSkipsTrailingSpace("2031", '\n');
    assert "2031\n" == "2031" + ['\n'];
  }

  /** A single underscore between digits is accepted: `int("2_031")` is 2031. */
  lemma ParseIntUnderscoreExample()
    ensures ParseInt("2_031") == Some(2031)
  {
    var s := "2_031";
    assert Strip(s) == s;
    assert Grouped(s) by {
      forall i | 0 <= i < |s| ensures IsDigit(s[i]) || s[i] == '_' {
      }
      forall i | 0 <= i < |s| - 1 && s[i] == '_' ensures s[i + 1] != '_' {
      }
    }
    assert Ungroup(s) == "2031";
    ParseDigitsOfDigits(2031);
    assert Digits(2031) == "2031";
    assert Unsigned(s) == Some(2031);
  }

  /** A doubled underscore, an underscore at either end of the digits, a space after the
      sign, and a blank string all raise ValueError. */
  lemma ParseIntRejectExamples()
    ensures ParseInt("2__031") == None && ParseInt("_2031") == None && ParseInt("2031_") == None
    ensures ParseInt("- 1") == None && ParseInt(" ") == None
  {
    assert Strip("2__031") == "2__031";
    assert !Grouped("2__031") by {
      assert "2__031"[1] == '_' && "2__031"[2] == '_';
    }
    assert Strip("_2031") == "_2031";
    assert Strip("2031_") == "2031_";
    assert Strip("- 1") == "- 1";
    assert Strip(" ") == "";
  }

  /** Distinct integers print differently. */
  lemma IntToStringInjective(a: int, b: int)
    requires IntToString(a) == IntToString(b)
    ensures a == b
  {
    ParseIntRoundTrip(a);
    ParseIntRoundTrip(b);
  }

  /** `str(n)` consists of an optional '-' and digits, so it never holds a separator such
      as ':', '/' or '.'. */
  lemma IntToStringChars(n: int)
    ensures forall i :: 0 <= i < |IntToString(n)| ==>
      IsDigit(IntToString(n)[i]) || IntToString(n)[i] == '-'
  {
    if n < 0 {
      DigitsAreDigits(-n);
      assert IntToString(n) == "-" + Digits(-n);
    } else {
      DigitsAreDigits(n);
    }
  }
}
