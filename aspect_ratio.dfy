/**
 * The aspect-ratio catalog of the room layout and the way an entry "a:b" is read: the
 * entry is split at every ':' as JavaScript's `split` does, the first two pieces are read
 * as base-10 integers the way `parseInt` reads them (longest leading run of digits, NaN when
 * there is none), and the ratio is the second divided by the first.
 */
module AspectRatio {
  import opened Wrappers

  /** The selectable ratios, as width:height labels. */
  const Catalog: seq<string> := ["16:9", "4:3", "1:1", "1:2"]

  predicate IsDigit(c: char)
  {
    '0' <= c <= '9'
  }

  predicate AllDigits(s: string)
  {
    forall k :: 0 <= k < |s| ==> IsDigit(s[k])
  }

  /** The number a string of decimal digits denotes. */
  function DecimalValue(s: string): nat
    requires AllDigits(s)
  {
    if s == [] then 0 else DecimalValue(s[..|s| - 1]) * 10 + (s[|s| - 1] as int - '0' as int)
  }

  /** The longest prefix of `s` made of digits. */
  function DigitPrefix(s: string): (p: string)
    ensures p <= s && AllDigits(p)
    ensures |p| < |s| ==> !IsDigit(s[|p|])
  {
    if s == [] || !IsDigit(s[0]) then [] else [s[0]] + DigitPrefix(s[1..])
  }

  /** `parseInt(s, 10)` for unsigned input: None stands for NaN. */
  function ParseInt(s: string): (r: Option<nat>)
    ensures r.None? <==> s == [] || !IsDigit(s[0])
    ensures s != [] && AllDigits(s) ==> r == Some(DecimalValue(s))
  {
    var p := DigitPrefix(s);
    assert AllDigits(s) ==> p == s by {
      if AllDigits(s) {
        DigitPrefixOfDigits(s, []);
        assert s + [] == s;
      }
    }
    if p == [] then None else Some(DecimalValue(p))
  }

  /** JavaScript's `s.split(':')`: the pieces between colons, never an empty list. */
  function Split(s: string): (parts: seq<string>)
    ensures |parts| >= 1
    ensures forall k :: 0 <= k < |parts| ==> ':' !in parts[k]
  {
    if s == [] then [""]
    else
      var rest := Split(s[1..]);
      if s[0] == ':' then [""] + rest else [[s[0]] + rest[0]] + rest[1..]
  }

  /** The inverse of `Split`: the pieces joined with ':' between them. */
  function Join(parts: seq<string>): string
    requires |parts| >= 1
  {
    if |parts| == 1 then parts[0] else parts[0] + ":" + Join(parts[1..])
  }

  /**
   * The height-per-width factor of an entry: `parseInt(b) / parseInt(a)` for "a:b".  None when
   * the division would give NaN or Infinity (a piece is missing or not a number, or `a` is 0).
   */
  function Ratio(entry: string): (r: Option<real>)
    ensures r.Some? ==> ':' in entry && r.value >= 0.0
  {
    var parts := Split(entry);
    assert ':' !in entry ==> |parts| == 1 by {
      if ':' !in entry {
        SplitNoColon(entry);
      }
    }
    var a := ParseInt(parts[0]);
    var b := if |parts| > 1 then ParseInt(parts[1]) else None;
    if a.Some? && b.Some? && a.value != 0 then Some(b.value as real / a.value as real) else None
  }

  // ---------------------------------------------------------------------------

  /** Splitting then joining gives back the entry. */
  lemma {:induction false} JoinSplit(s: string)
    ensures Join(Split(s)) == s
  {
    if s != [] {
      JoinSplit(s[1..]);
      var rest := Split(s[1..]);
      if s[0] == ':' {
        assert Split(s)[1..] == rest;
        assert s == [':'] + s[1..];
      } else {
        var parts := Split(s);
        if |rest| == 1 {
          assert s == [s[0]] + s[1..];
        } else {
          assert parts[1..] == rest[1..];
          assert Join(rest) == rest[0] + ":" + Join(rest[1..]);
          assert s == [s[0]] + s[1..];
        }
      }
    }
  }

  /** A piece without ':' followed by ':' is split off as the first piece. */
  lemma {:induction false} SplitAtColon(x: string, y: string)
    requires ':' !in x
    ensures Split(x + ":" + y) == [x] + Split(y)
  {
    if x == [] {
      assert x + ":" + y == [':'] + y;
      assert (x + ":" + y)[1..] == y;
    } else {
      SplitAtColon(x[1..], y);
      assert (x + ":" + y)[1..] == x[1..] + ":" + y;
      assert [x[0]] + x[1..] == x;
    }
  }

  /** A string without ':' is one piece. */
  lemma {:induction false} SplitNoColon(y: string)
    requires ':' !in y
    ensures Split(y) == [y]
  {
    if y != [] {
      SplitNoColon(y[1..]);
      assert [y[0]] + y[1..] == y;
    }
  }

  /** `parseInt` reads a run of digits and stops at the first character that is not a digit. */
  lemma {:induction false} ParseIntStopsAtNonDigit(x: string, t: string)
    requires x != [] && AllDigits(x)
    requires t == [] || !IsDigit(t[0])
    ensures ParseInt(x + t) == Some(DecimalValue(x))
  {
    DigitPrefixOfDigits(x, t);
  }

  lemma {:induction false} DigitPrefixOfDigits(x: string, t: string)
    requires AllDigits(x)
    requires t == [] || !IsDigit(t[0])
    ensures DigitPrefix(x + t) == x
  {
    if x == [] {
      assert x + t == t;
    } else {
      DigitPrefixOfDigits(x[1..], t);
      assert (x + t)[1..] == x[1..] + t;
      assert [x[0]] + x[1..] == x;
    }
  }

  lemma DigitsHaveNoColon(x: string)
    requires AllDigits(x)
    ensures ':' !in x
  {
    forall k | 0 <= k < |x|
      ensures x[k] != ':'
    {
      assert IsDigit(x[k]);
    }
  }

  /** The ratio of "a:b" for decimal numerals a (not zero) and b is b / a. */
  lemma RatioOfEntry(x: string, y: string)
    requires x != [] && y != [] && AllDigits(x) && AllDigits(y)
    requires DecimalValue(x) != 0
    ensures Ratio(x + ":" + y) == Some(DecimalValue(y) as real / DecimalValue(x) as real)
  {
    DigitsHaveNoColon(x);
    DigitsHaveNoColon(y);
    SplitAtColon(x, y);
    SplitNoColon(y);
    ParseIntStopsAtNonDigit(x, []);
    ParseIntStopsAtNonDigit(y, []);
    assert x + [] == x && y + [] == y;
  }

  /** Every catalog entry reads as a positive ratio. */
  lemma CatalogRatiosPositive()
    ensures forall i :: 0 <= i < |Catalog| ==> Ratio(Catalog[i]).Some? && Ratio(Catalog[i]).value > 0.0
  {
    CatalogRatios();
  }

  /** The four catalog entries read as 9/16, 3/4, 1 and 2. */
  lemma CatalogRatios()
    ensures Ratio(Catalog[0]) == Some(9.0 / 16.0)
    ensures Ratio(Catalog[1]) == Some(3.0 / 4.0)
    ensures Ratio(Catalog[2]) == Some(1.0)
    ensures Ratio(Catalog[3]) == Some(2.0)
  {
    RatioSixteenNine();
    RatioFourThree();
    RatioOneOne();
    RatioOneTwo();
  }

  lemma RatioSixteenNine()
    ensures Ratio("16:9") == Some(9.0 / 16.0)
  {
    assert DecimalValue("16") == 16 by { assert "16"[..1] == "1"; assert "1"[..0] == ""; }
    assert DecimalValue("9") == 9 by { assert "9"[..0] == ""; }
    assert "16:9" == "16" + ":" + "9";
    RatioOfEntry("16", "9");
  }

  lemma RatioFourThree()
    ensures Ratio("4:3") == Some(3.0 / 4.0)
  {
    assert DecimalValue("4") == 4 by { assert "4"[..0] == ""; }
    assert DecimalValue("3") == 3 by { assert "3"[..0] == ""; }
    assert "4:3" == "4" + ":" + "3";
    RatioOfEntry("4", "3");
  }

  lemma RatioOneOne()
    ensures Ratio("1:1") == Some(1.0)
  {
    assert DecimalValue("1") == 1 by { assert "1"[..0] == ""; }
    assert "1:1" == "1" + ":" + "1";
    RatioOfEntry("1", "1");
  }

  lemma RatioOneTwo()
    ensures Ratio("1:2") == Some(2.0)
  {
    assert DecimalValue("1") == 1 by { assert "1"[..0] == ""; }
    assert DecimalValue("2") == 2 by { assert "2"[..0] == ""; }
    assert "1:2" == "1" + ":" + "2";
    RatioOfEntry("1", "2");
  }
}
