/**
 * The handful of Python string primitives the conversion relies on:
 * str.strip(), str.replace(pat, ""), int(str), str(int) and "%02d" % n.
 * Strings are sequences of Unicode code points, as Python's str is.
 */
module Text {
  import opened Results

  /** Python's str.isspace() for one character (the characters str.strip() and int() discard). */
  predicate IsSpace(c: char)
  {
    var n := c as int;
    (9 <= n <= 13) || (28 <= n <= 32) || n == 0x85 || n == 0xA0 || n == 0x1680
    || (0x2000 <= n <= 0x200A) || n == 0x2028 || n == 0x2029 || n == 0x202F
    || n == 0x205F || n == 0x3000
  }

  /** `s` without its leading whitespace. */
  function TrimStart(s: string): (r: string)
    ensures |r| <= |s|
    decreases |s|
  {
    if s == [] || !IsSpace(s[0]) then s else TrimStart(s[1..])
  }

  /** `s` without its trailing whitespace. */
  function TrimEnd(s: string): (r: string)
    ensures |r| <= |s|
    decreases |s|
  {
    if s == [] || !IsSpace(s[|s| - 1]) then s else TrimEnd(s[..|s| - 1])
  }

  /** Python's str.strip(). */
  function Strip(s: string): string
  {
    TrimEnd(TrimStart(s))
  }

  /** TrimStart drops a prefix of whitespace and stops at the first other character. */
  lemma {:induction false} TrimStartShape(s: string)
    ensures var r := TrimStart(s);
      && r == s[|s| - |r|..]
      && (forall i :: 0 <= i < |s| - |r| ==> IsSpace(s[i]))
      && (r == [] || !IsSpace(r[0]))
    decreases |s|
  {
    if s != [] && IsSpace(s[0]) {
      TrimStartShape(s[1..]);
      var r := TrimStart(s[1..]);
      assert s[1..][|s| - 1 - |r|..] == s[|s| - |r|..];
      forall i | 1 <= i < |s| - |r| ensures IsSpace(s[i]) {
        assert s[i] == s[1..][i - 1];
      }
    }
  }

  /** TrimEnd drops a suffix of whitespace and stops at the last other character. */
  lemma {:induction false} TrimEndShape(s: string)
    ensures var r := TrimEnd(s);
      && r == s[..|r|]
      && (forall i :: |r| <= i < |s| ==> IsSpace(s[i]))
      && (r == [] || !IsSpace(r[|r| - 1]))
    decreases |s|
  {
    if s != [] && IsSpace(s[|s| - 1]) {
      var p := s[..|s| - 1];
      TrimEndShape(p);
      var r := TrimEnd(p);
      assert p[..|r|] == s[..|r|];
      forall i | |r| <= i < |s| - 1 ensures IsSpace(s[i]) {
        assert s[i] == p[i];
      }
    }
  }

  /**
   * str.strip() keeps a slice of `s` that neither starts nor ends with
   * whitespace: the one beginning after the leading whitespace.
   */
  lemma StripSlice(s: string)
    ensures var r := Strip(s); var k := |s| - |TrimStart(s)|;
      && k + |r| <= |s| && r == s[k..k + |r|]
      && (r == [] || (!IsSpace(r[0]) && !IsSpace(r[|r| - 1])))
  {
    var t := TrimStart(s);
    TrimStartShape(s);
    TrimEndShape(t);
    var k := |s| - |t|;
    var r := TrimEnd(t);
    assert r == s[k..][..|r|];
    assert r == [] || r[0] == t[0];
  }

  /** What str.strip() drops, on either side of the slice it keeps, is whitespace. */
  lemma StripDrops(s: string)
    ensures var r := Strip(s); var k := |s| - |TrimStart(s)|;
      && k + |r| <= |s|
      && (forall i :: 0 <= i < k ==> IsSpace(s[i]))
      && (forall i :: k + |r| <= i < |s| ==> IsSpace(s[i]))
  {
    var t := TrimStart(s);
    TrimStartShape(s);
    TrimEndShape(t);
    var k := |s| - |t|;
    var r := TrimEnd(t);
    assert t == s[k..];
    forall i | k + |r| <= i < |s| ensures IsSpace(s[i]) {
      assert |r| <= i - k < |t|;
      assert IsSpace(t[i - k]);
    }
  }

  lemma StripKeeps(s: string)
    requires s != [] && !IsSpace(s[0]) && !IsSpace(s[|s| - 1])
    ensures Strip(s) == s
  {
  }

  /** True when `pat` occurs in `s` starting at index `i`. */
  predicate OccursAt(s: string, pat: string, i: int)
  {
    0 <= i && i + |pat| <= |s| && s[i..i + |pat|] == pat
  }

  /**
   * Python's s.replace(pat, ""): every occurrence of `pat` found scanning
   * from the left, each search resuming after the previous occurrence, is
   * removed. A string with no occurrence is returned unchanged, and a
   * one-character pattern leaves no instance of that character behind.
   */
  function RemoveAll(s: string, pat: string): (r: string)
    requires |pat| > 0
    ensures |r| <= |s|
    ensures (forall i :: !OccursAt(s, pat, i)) ==> r == s
    ensures |pat| == 1 ==> pat[0] !in r
    decreases |s|
  {
    if |s| < |pat| then s
    else if s[..|pat|] == pat then
      assert OccursAt(s, pat, 0);
      RemoveAll(s[|pat|..], pat)
    else
      assert forall i :: OccursAt(s[1..], pat, i) ==> OccursAt(s, pat, i + 1) by {
        forall i | OccursAt(s[1..], pat, i) ensures OccursAt(s, pat, i + 1) {
          assert s[1..][i..i + |pat|] == s[i + 1..i + 1 + |pat|];
        }
      }
      assert |pat| == 1 ==> s[..1] == [s[0]] && pat == [pat[0]];
      [s[0]] + RemoveAll(s[1..], pat)
  }

  /** `r` can be obtained from `s` by deleting characters, keeping the rest in order. */
  predicate Subsequence(r: string, s: string)
    decreases |s|
  {
    if r == [] then true
    else if s == [] then false
    else (r[0] == s[0] && Subsequence(r[1..], s[1..])) || Subsequence(r, s[1..])
  }

  /** Characters in front of a string never stop a subsequence of it being one. */
  lemma {:induction false} SubsequencePrefix(r: string, s: string, n: nat)
    requires n <= |s| && Subsequence(r, s[n..])
    ensures Subsequence(r, s)
    decreases n
  {
    if n > 0 {
      assert s[n - 1..][1..] == s[n..];
      SubsequencePrefix(r, s, n - 1);
    }
  }

  /**
   * str.replace(pat, ""), for any pattern: what remains is a subsequence of
   * `s`, and it is shorter by `k` whole copies of the pattern.
   */
  lemma {:induction false} RemoveAllKeeps(s: string, pat: string) returns (k: nat)
    requires |pat| > 0
    ensures Subsequence(RemoveAll(s, pat), s)
    ensures |s| - |RemoveAll(s, pat)| == k * |pat|
    decreases |s|
  {
    var r := RemoveAll(s, pat);
    if |s| < |pat| {
      SubsequenceSelf(s);
      k := 0;
    } else if s[..|pat|] == pat {
      var k' := RemoveAllKeeps(s[|pat|..], pat);
      SubsequencePrefix(r, s, |pat|);
      k := k' + 1;
      assert k * |pat| == k' * |pat| + |pat|;
    } else {
      k := RemoveAllKeeps(s[1..], pat);
      assert r[0] == s[0] && r[1..] == RemoveAll(s[1..], pat);
    }
  }

  lemma {:induction false} SubsequenceSelf(s: string)
    ensures Subsequence(s, s)
    decreases |s|
  {
    if s != [] {
      SubsequenceSelf(s[1..]);
    }
  }

  /** Removing one character distributes over concatenation. */
  lemma {:induction false} RemoveCharConcat(a: string, b: string, c: char)
    ensures RemoveAll(a + b, [c]) == RemoveAll(a, [c]) + RemoveAll(b, [c])
    decreases |a|
  {
    if a == [] {
      assert a + b == b;
    } else {
      assert (a + b)[1..] == a[1..] + b;
      assert (a + b)[..1] == a[..1];
      RemoveCharConcat(a[1..], b, c);
    }
  }

  predicate IsDigit(c: char)
  {
    '0' <= c <= '9'
  }

  function DigitValue(c: char): nat
    requires IsDigit(c)
  {
    c as int - '0' as int
  }

  function DigitChar(d: nat): (c: char)
    requires d < 10
    ensures IsDigit(c) && DigitValue(c) == d
  {
    ('0' as int + d) as char
  }

  /** The decimal digits of `n`, most significant first, without leading zeros. */
  function Digits(n: nat): (r: string)
    ensures |r| > 0 && forall i :: 0 <= i < |r| ==> IsDigit(r[i])
    decreases n
  {
    if n < 10 then [DigitChar(n)] else Digits(n / 10) + [DigitChar(n % 10)]
  }

  /** Python's str(n) for an int. */
  function IntToString(n: int): string
  {
    if n < 0 then "-" + Digits(-n) else Digits(n)
  }

  /** Python's "%02d" % n: at least two characters, zero-padded when non-negative. */
  function Pad2(n: int): (r: string)
    ensures |r| >= 2
  {
    if n < 0 then "-" + Digits(-n)
    else if n < 10 then "0" + Digits(n)
    else Digits(n)
  }

  /** The body of a Python integer literal: decimal digits, a single '_' allowed between two of them. */
  predicate DigitRun(t: string)
  {
    && |t| > 0 && IsDigit(t[0]) && IsDigit(t[|t| - 1])
    && forall i :: 0 <= i < |t| ==> IsDigit(t[i]) || (t[i] == '_' && i + 1 < |t| && IsDigit(t[i + 1]))
  }

  /** The number a digit run denotes, underscores skipped. */
  function RunValue(t: string): nat
    decreases |t|
  {
    if t == [] then 0
    else if IsDigit(t[|t| - 1]) then RunValue(t[..|t| - 1]) * 10 + DigitValue(t[|t| - 1])
    else RunValue(t[..|t| - 1])
  }

  /**
   * Python's int(s) for a str: surrounding whitespace ignored, an optional
   * sign, then a digit run; None where int() raises ValueError.
   */
  function ParseInt(s: string): Option<int>
  {
    var t := Strip(s);
    if |t| > 0 && (t[0] == '-' || t[0] == '+') then
      if DigitRun(t[1..]) then
        var v: int := RunValue(t[1..]);
        Some(if t[0] == '-' then -v else v)
      else None
    else if DigitRun(t) then Some(RunValue(t))
    else None
  }

  lemma {:induction false} DigitsValue(n: nat)
    ensures DigitRun(Digits(n)) && RunValue(Digits(n)) == n
    decreases n
  {
    if n >= 10 {
      DigitsValue(n / 10);
      var r := Digits(n);
      assert r[..|r| - 1] == Digits(n / 10);
    }
  }

  lemma {:induction false} LeadingZero(t: string)
    ensures RunValue("0" + t) == RunValue(t)
    decreases |t|
  {
    if t == [] {
      assert ("0" + t)[..0] == [];
    } else {
      assert ("0" + t)[..|"0" + t| - 1] == "0" + t[..|t| - 1];
      LeadingZero(t[..|t| - 1]);
    }
  }

  /** int() of a plain run of decimal digits is the number they denote. */
  lemma ParseDigits(t: string)
    requires |t| > 0 && forall i :: 0 <= i < |t| ==> IsDigit(t[i])
    ensures ParseInt(t) == Some(RunValue(t))
  {
    StripKeeps(t);
    assert DigitRun(t);
  }

  /** int() of a minus sign before a run of decimal digits is the negated number. */
  lemma ParseNegatedDigits(t: string)
    requires |t| > 0 && forall i :: 0 <= i < |t| ==> IsDigit(t[i])
    ensures ParseInt("-" + t) == Some(0 - RunValue(t) as int)
  {
    var m := "-" + t;
    StripKeeps(m);
    assert m[1..] == t;
    assert DigitRun(t);
  }

  /** int(str(n)) == n. */
  lemma ParseIntToString(n: int)
    ensures ParseInt(IntToString(n)) == Some(n)
  {
    if n < 0 {
      NegatedDigits(-n);
    } else {
      DigitsValue(n);
      ParseDigits(Digits(n));
    }
  }

  /** int("-" + str(n)) == -n for a positive n. */
  lemma NegatedDigits(n: nat)
    ensures ParseInt("-" + Digits(n)) == Some(0 - n)
  {
    DigitsValue(n);
    ParseNegatedDigits(Digits(n));
  }

  /** int("%02d" % n) == n. */
  lemma ParseIntPad2(n: int)
    ensures ParseInt(Pad2(n)) == Some(n)
  {
    if n < 0 {
      ParseIntToString(n);
    } else if n < 10 {
      PaddedDigit(n);
    } else {
      ParseIntToString(n);
    }
  }

  /** The zero-padded single digit: int("0" + str(n)) == n. */
  lemma PaddedDigit(n: nat)
    requires n < 10
    ensures ParseInt("0" + Digits(n)) == Some(n)
  {
    var t := "0" + Digits(n);
    assert t == ['0', DigitChar(n)];
    ParseDigits(t);
    LeadingZero(Digits(n));
    DigitsValue(n);
  }

  /** For 0 <= n < 100, "%02d" % n is exactly the tens digit followed by the units digit. */
  lemma Pad2TwoDigits(n: int)
    requires 0 <= n < 100
    ensures Pad2(n) == [DigitChar(n / 10), DigitChar(n % 10)]
  {
    if n < 10 {
      assert DigitChar(0) == '0';
    } else {
      assert Digits(n / 10) == [DigitChar(n / 10)];
    }
  }
}
