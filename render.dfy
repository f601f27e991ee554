/** How counts are turned into display text: Python's `str(n)` and the
    thousands-grouped `f"{n:,}"`, each with an independent inverse
    (ParseDecimal, Ungroup) so that contracts can say which number is shown. */
module Render {

  predicate IsDigit(c: char) {
    '0' <= c <= '9'
  }

  predicate AllDigits(s: string) {
    forall i :: 0 <= i < |s| ==> IsDigit(s[i])
  }

  function DigitChar(d: nat): (c: char)
    requires d < 10
    ensures IsDigit(c) && c as int - '0' as int == d
  {
    ('0' as int + d) as char
  }

  /** The decimal rendering `str(n)` of a non-negative integer. */
  function Decimal(n: nat): (s: string)
    ensures |s| >= 1 && AllDigits(s)
    ensures (|s| == 1) == (n < 10)
    ensures s[0] == '0' <==> n == 0
    decreases n
  {
    if n < 10 then [DigitChar(n)] else Decimal(n / 10) + [DigitChar(n % 10)]
  }

  /** The number a string of decimal digits denotes (reference inverse of Decimal). */
  function ParseDecimal(s: string): nat
    requires AllDigits(s)
    decreases |s|
  {
    if s == [] then 0
    else 10 * ParseDecimal(s[..|s| - 1]) + (s[|s| - 1] as int - '0' as int)
  }

  /** Reading back the rendered count yields the count: the text shown is the number. */
  lemma {:induction false} ParseDecimalOfDecimal(n: nat)
    ensures ParseDecimal(Decimal(n)) == n
    decreases n
  {
    if n >= 10 {
      var s := Decimal(n);
      assert s[..|s| - 1] == Decimal(n / 10);
      ParseDecimalOfDecimal(n / 10);
    }
  }

  /** Rendering is injective: two different counts never show the same text. */
  lemma DecimalInjective(m: nat, n: nat)
    requires Decimal(m) == Decimal(n)
    ensures m == n
  {
    ParseDecimalOfDecimal(m);
    ParseDecimalOfDecimal(n);
  }

  /** Inserts a comma before every full group of three digits, counted from the right. */
  function Group(d: string): string
    decreases |d|
  {
    if |d| <= 3 then d else Group(d[..|d| - 3]) + "," + d[|d| - 3..]
  }

  /** Removes every comma (reference inverse of Group). */
  function Ungroup(s: string): (r: string)
    ensures |r| <= |s|
    decreases |s|
  {
    if s == [] then []
    else Ungroup(s[..|s| - 1]) + (if s[|s| - 1] == ',' then [] else [s[|s| - 1]])
  }

  lemma {:induction false} UngroupAppend(a: string, b: string)
    ensures Ungroup(a + b) == Ungroup(a) + Ungroup(b)
    decreases |b|
  {
    if b != [] {
      var b' := b[..|b| - 1];
      assert (a + b)[..|a + b| - 1] == a + b';
      UngroupAppend(a, b');
    } else {
      assert a + b == a;
    }
  }

  lemma {:induction false} UngroupDigits(d: string)
    requires AllDigits(d)
    ensures Ungroup(d) == d
    decreases |d|
  {
    if d != [] {
      UngroupDigits(d[..|d| - 1]);
    }
  }

  /** Grouping only inserts commas: removing them gives the digits back. */
  lemma {:induction false} GroupUngroup(d: string)
    requires AllDigits(d)
    ensures Ungroup(Group(d)) == d
    decreases |d|
  {
    if |d| <= 3 {
      UngroupDigits(d);
    } else {
      var p, tail := d[..|d| - 3], d[|d| - 3..];
      var g := Group(p);
      GroupUngroup(p);
      assert Group(d) == (g + ",") + tail;
      UngroupAppend(g + ",", tail);
      UngroupAppend(g, ",");
      UngroupDigits(tail);
      assert Ungroup(",") == [];
      assert p + tail == d;
    }
  }

  /** Grouping a run of k digits inserts (k - 1) / 3 commas. */
  lemma {:induction false} GroupLength(d: string)
    requires |d| >= 1
    ensures |Group(d)| == |d| + (|d| - 1) / 3
    decreases |d|
  {
    if |d| > 3 {
      GroupLength(d[..|d| - 3]);
    }
  }

  /** In a grouped run of digits a character is a comma exactly when its
      distance from the right end is a multiple of four. */
  lemma {:induction false} GroupCommas(d: string)
    requires AllDigits(d)
    ensures forall i :: 0 <= i < |Group(d)| ==> (Group(d)[i] == ',' <==> (|Group(d)| - i) % 4 == 0)
    decreases |d|
  {
    var r := Group(d);
    if |d| <= 3 {
      forall i | 0 <= i < |r|
        ensures r[i] == ',' <==> (|r| - i) % 4 == 0
      {
        assert IsDigit(d[i]);
        assert 1 <= |r| - i <= 3;
      }
    } else {
      var p, tail := d[..|d| - 3], d[|d| - 3..];
      var g := Group(p);
      GroupCommas(p);
      assert r == g + "," + tail;
      assert |r| == |g| + 4;
      forall i | 0 <= i < |r|
        ensures r[i] == ',' <==> (|r| - i) % 4 == 0
      {
        if i < |g| {
          assert r[i] == g[i];
          assert (|r| - i) % 4 == (|g| - i) % 4;
        } else if i == |g| {
          assert r[i] == ',';
        } else {
          assert r[i] == tail[i - |g| - 1];
          assert IsDigit(tail[i - |g| - 1]);
          assert 1 <= |r| - i <= 3;
        }
      }
    }
  }

  /** The comma-grouped rendering `f"{n:,}"` of a count. */
  function Grouped(n: nat): (s: string)
    ensures Ungroup(s) == Decimal(n)
    ensures |s| == |Decimal(n)| + (|Decimal(n)| - 1) / 3
    ensures forall i :: 0 <= i < |s| ==> (s[i] == ',' <==> (|s| - i) % 4 == 0)
    ensures n < 1000 ==> s == Decimal(n)
  {
    var d := Decimal(n);
    GroupUngroup(d);
    GroupLength(d);
    GroupCommas(d);
    SmallDecimal(n);
    Group(d)
  }

  lemma SmallDecimal(n: nat)
    ensures n < 1000 ==> |Decimal(n)| <= 3
  {
  }

  /** The two worked examples of the grouped count: 7 shows as "7", 1234 as "1,234". */
  lemma GroupedExamples()
    ensures Grouped(7) == "7"
    ensures Grouped(1234) == "1,234"
  {
  }
}
