/**
 * The names the row joiner derives from an element's metadata: the well
 * name (PEContentHandler.well_name), the channel name
 * (PEContentHandler.channel_name), the "%02d-%02d" field key of an image,
 * and the site written for a field key.
 */
module Naming {
  import opened Results
  import opened Text
  import opened Elements

  /** Python's chr(n), where it yields a character a Dafny string can hold. */
  function CodePoint(n: int): (r: Option<char>)
    ensures r.Some? ==> r.value as int == n
    ensures r.None? <==> n < 0 || 0x110000 <= n || (0xD800 <= n < 0xE000)
  {
    if 0 <= n < 0xD800 || 0xE000 <= n < 0x110000 then Some(n as char) else None
  }

  /**
   * well_name: chr(ord('A') + Row - 1) followed by "%02d" % Col; None where
   * the property raises (a missing or non-integer Row or Col, or a Row
   * that gives no character).
   */
  function WellName(meta: Meta): Option<string>
  {
    if "Row" !in meta || "Col" !in meta then None
    else
      match (ParseInt(meta["Row"]), ParseInt(meta["Col"]))
      case (Some(row), Some(col)) =>
        (match CodePoint('A' as int + row - 1)
         case Some(letter) => Some([letter] + Pad2(col))
         case None => None)
      case _ => None
  }

  /**
   * For integer Row and Col the well name is the row letter followed by
   * the padded column, and the column reads back from the name.
   */
  lemma WellNameShape(meta: Meta, row: int, col: int)
    requires "Row" in meta && ParseInt(meta["Row"]) == Some(row)
    requires "Col" in meta && ParseInt(meta["Col"]) == Some(col)
    requires 1 <= row <= 26
    ensures var r := WellName(meta);
      && r.Some? && |r.value| >= 3
      && 'A' <= r.value[0] <= 'Z' && r.value[0] as int - 'A' as int == row - 1
      && ParseInt(r.value[1..]) == Some(col)
  {
    var r := WellName(meta);
    assert r.value[1..] == Pad2(col);
    ParseIntPad2(col);
  }

  /** A column below 100 gives exactly two digits, so every such well name has three characters. */
  lemma WellNameTwoDigits(meta: Meta, row: int, col: int)
    requires "Row" in meta && ParseInt(meta["Row"]) == Some(row)
    requires "Col" in meta && ParseInt(meta["Col"]) == Some(col)
    requires 1 <= row <= 26 && 0 <= col < 100
    ensures WellName(meta) == Some([('A' as int + row - 1) as char, DigitChar(col / 10), DigitChar(col % 10)])
  {
    Pad2TwoDigits(col);
    var letter := ('A' as int + row - 1) as char;
    assert CodePoint('A' as int + row - 1) == Some(letter);
    assert [letter] + Pad2(col) == [letter, DigitChar(col / 10), DigitChar(col % 10)];
  }

  /** Row 2, Col 2 is "B02"; Row 1, Col 10 is "A10". */
  lemma WellNameExamples()
    ensures WellName(map["Row" := "2", "Col" := "2"]) == Some("B02")
    ensures WellName(map["Row" := "1", "Col" := "10"]) == Some("A10")
  {
    ParsesSmall();
    WellNameTwoDigits(map["Row" := "2", "Col" := "2"], 2, 2);
    WellNameTwoDigits(map["Row" := "1", "Col" := "10"], 1, 10);
  }

  /** int() of the literals the examples use. */
  lemma ParsesSmall()
    ensures ParseInt("1") == Some(1) && ParseInt("2") == Some(2) && ParseInt("10") == Some(10)
    ensures ParseInt("12") == Some(12) && ParseInt("-1") == Some(-1)
  {
    assert IntToString(1) == "1" by { assert Digits(1) == [DigitChar(1)]; }
    assert IntToString(2) == "2" by { assert Digits(2) == [DigitChar(2)]; }
    assert IntToString(10) == "10" by { assert Digits(10) == Digits(1) + [DigitChar(0)]; }
    assert IntToString(12) == "12" by { assert Digits(12) == Digits(1) + [DigitChar(2)]; }
    assert IntToString(-1) == "-1" by { assert Digits(1) == [DigitChar(1)]; }
    ParseIntToString(1);
    ParseIntToString(2);
    ParseIntToString(10);
    ParseIntToString(12);
    ParseIntToString(-1);
  }

  /** The characters of `s` other than `c`, in their order: a reference for str.replace(c, ""). */
  function Without(s: string, c: char): (r: string)
    ensures c !in r
    ensures forall d :: d != c ==> multiset(r)[d] == multiset(s)[d]
    decreases |s|
  {
    if s == [] then []
    else
      assert s == [s[0]] + s[1..];
      if s[0] == c then Without(s[1..], c) else [s[0]] + Without(s[1..], c)
  }

  /** Removing a one-character pattern keeps every other character, in order. */
  lemma {:induction false} RemoveCharIsWithout(s: string, c: char)
    ensures RemoveAll(s, [c]) == Without(s, c)
    decreases |s|
  {
    if s != [] {
      assert s[..1] == [s[0]];
      RemoveCharIsWithout(s[1..], c);
    }
  }

  /** channel_name: ChannelName with the spaces removed; None when the image has no ChannelName. */
  function ChannelName(meta: Meta): (r: Option<string>)
    ensures r.Some? <==> "ChannelName" in meta
    ensures r.Some? ==> ' ' !in r.value
  {
    if "ChannelName" in meta then Some(RemoveAll(meta["ChannelName"], " ")) else None
  }

  /** The channel name is ChannelName with exactly its spaces dropped and every other character kept in order. */
  lemma ChannelNameKeeps(meta: Meta)
    requires "ChannelName" in meta
    ensures ChannelName(meta) == Some(Without(meta["ChannelName"], ' '))
  {
    RemoveCharIsWithout(meta["ChannelName"], ' ');
  }

  /** The plane of an image: int(PlaneID), or 1 when the image has none; None where int() raises. */
  function PlaneId(meta: Meta): Option<int>
  {
    if "PlaneID" in meta then ParseInt(meta["PlaneID"]) else Some(1)
  }

  /**
   * An image's field key: "%02d-%02d" % (int(FieldID), int(PlaneID)), the
   * plane defaulting to 1; None where the expression raises.
   */
  function FieldKey(meta: Meta): Option<string>
  {
    if "FieldID" !in meta then None
    else
      match ParseInt(meta["FieldID"])
      case None => None
      case Some(field) =>
        match PlaneId(meta)
        case None => None
        case Some(p) => Some(Pad2(field) + "-" + Pad2(p))
  }

  /** After its first character "%02d" % n holds only digits, so the key's separator is its first '-' past index 0. */
  lemma Pad2Tail(n: int)
    ensures forall i :: 1 <= i < |Pad2(n)| ==> IsDigit(Pad2(n)[i])
  {
  }

  /** "%02d-%02d" is one-to-one: the key determines both numbers. */
  lemma {:induction false} Pad2PairInjective(a: int, b: int, c: int, d: int)
    requires Pad2(a) + "-" + Pad2(b) == Pad2(c) + "-" + Pad2(d)
    ensures a == c && b == d
  {
    var k := Pad2(a) + "-" + Pad2(b);
    Pad2Tail(a);
    Pad2Tail(c);
    assert |Pad2(a)| == |Pad2(c)| by {
      var k' := Pad2(c) + "-" + Pad2(d);
      assert k[|Pad2(a)|] == '-' && k'[|Pad2(c)|] == '-';
    }
    var n := |Pad2(a)|;
    assert Pad2(a) == k[..n] == Pad2(c);
    assert Pad2(b) == k[n + 1..] == Pad2(d);
    ParseIntPad2(a);
    ParseIntPad2(b);
    ParseIntPad2(c);
    ParseIntPad2(d);
  }

  /**
   * Two images share a field key exactly when their FieldIDs and their
   * planes (PlaneID, defaulting to 1) are equal: grouping by key groups by
   * field and plane.
   */
  lemma FieldKeyInjective(m1: Meta, m2: Meta)
    requires "FieldID" in m1 && "FieldID" in m2
    requires FieldKey(m1).Some? && FieldKey(m2).Some?
    ensures FieldKey(m1) == FieldKey(m2)
      <==> ParseInt(m1["FieldID"]) == ParseInt(m2["FieldID"]) && PlaneId(m1) == PlaneId(m2)
  {
    if FieldKey(m1) == FieldKey(m2) {
      Pad2PairInjective(ParseInt(m1["FieldID"]).value, PlaneId(m1).value,
                        ParseInt(m2["FieldID"]).value, PlaneId(m2).value);
    }
  }

  /** The first two characters of a field key, field[:2]. */
  function Head2(field: string): string
  {
    if |field| < 2 then field else field[..2]
  }

  /** int(field[:2]) succeeds. */
  predicate SiteParses(field: string)
  {
    ParseInt(Head2(field)).Some?
  }

  /** The site written for a field: str(int(field[:2])). */
  function Site(field: string): string
    requires SiteParses(field)
  {
    IntToString(ParseInt(Head2(field)).value)
  }

  /** The first two characters of "%02d" % f: a digit pair, or a minus sign and a digit. */
  lemma Pad2Head(f: int)
    ensures var h := Pad2(f)[..2];
      if f < 0 then h[0] == '-' && IsDigit(h[1]) else IsDigit(h[0]) && IsDigit(h[1])
  {
  }

  /** Every key "%02d-%02d" % (f, p) yields a site. */
  lemma {:induction false} FieldKeySite(f: int, p: int)
    ensures SiteParses(Pad2(f) + "-" + Pad2(p))
    ensures Head2(Pad2(f) + "-" + Pad2(p)) == Pad2(f)[..2]
  {
    var h := Pad2(f)[..2];
    assert Head2(Pad2(f) + "-" + Pad2(p)) == h;
    Pad2Head(f);
    StripKeeps(h);
    if f < 0 {
      assert DigitRun(h[1..]);
    } else {
      assert DigitRun(h);
    }
  }

  /** Every key an image can produce yields a site. */
  lemma FieldKeyParses(meta: Meta)
    requires FieldKey(meta).Some?
    ensures SiteParses(FieldKey(meta).value)
  {
    FieldKeySite(ParseInt(meta["FieldID"]).value, PlaneId(meta).value);
  }

  /** For a FieldID between -9 and 99 the site is the FieldID itself, the plane stripped. */
  lemma SiteIsField(f: int, p: int)
    requires -9 <= f < 100
    ensures SiteParses(Pad2(f) + "-" + Pad2(p))
    ensures Site(Pad2(f) + "-" + Pad2(p)) == IntToString(f)
  {
    assert |Pad2(f)| == 2 by {
      if f >= 0 {
        Pad2TwoDigits(f);
      } else {
        assert Digits(-f) == [DigitChar(-f)];
      }
    }
    assert Head2(Pad2(f) + "-" + Pad2(p)) == Pad2(f);
    ParseIntPad2(f);
  }

  /** field[:2] keeps two characters whatever the width: FieldID 123 is written as site 12. */
  lemma SiteTruncatesWide()
    ensures SiteParses(Pad2(123) + "-" + Pad2(1)) && Site(Pad2(123) + "-" + Pad2(1)) == "12"
  {
    var k := Pad2(123) + "-" + Pad2(1);
    assert Head2(k) == "12" by {
      assert Digits(123) == Digits(12) + [DigitChar(3)];
      assert Digits(12) == Digits(1) + [DigitChar(2)];
      assert Digits(1) == [DigitChar(1)];
    }
    ParsesSmall();
    assert IntToString(12) == "12" by { assert Digits(12) == Digits(1) + [DigitChar(2)]; }
  }

  /** ... and FieldID -12 is written as site -1. */
  lemma SiteTruncatesNegative()
    ensures SiteParses(Pad2(-12) + "-" + Pad2(1)) && Site(Pad2(-12) + "-" + Pad2(1)) == "-1"
  {
    var k := Pad2(-12) + "-" + Pad2(1);
    assert Head2(k) == "-1" by {
      assert Digits(12) == Digits(1) + [DigitChar(2)];
      assert Digits(1) == [DigitChar(1)];
    }
    ParsesSmall();
    assert IntToString(-1) == "-1" by { assert Digits(1) == [DigitChar(1)]; }
  }
}
