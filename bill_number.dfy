/** Bill numbers: `BILL-<yyyyMMdd>-<serial>`, where the serial is one more than the number of
    bill numbers already issued with that date prefix, zero-padded to at least four digits. */
module BillNumber {
  import opened Common

  const BILL := "BILL-"

  /** The date in the `yyyyMMdd` pattern. */
  function DatePart(d: Date): (s: string)
    requires d.Valid()
    ensures |s| == 8
  {
    Pad4Exact(d.year);
    Pad2Exact(d.month);
    Pad2Exact(d.day);
    ZeroPad(d.year, 4) + ZeroPad(d.month, 2) + ZeroPad(d.day, 2)
  }

  lemma Pad4Exact(n: nat)
    requires n < 10000
    ensures |ZeroPad(n, 4)| == 4
  {
    assert Pow10(4) == 10000;
    NatToStringWidth(n, 4);
    ZeroPadDigits(n, 4);
  }

  lemma Pad2Exact(n: nat)
    requires n < 100
    ensures |ZeroPad(n, 2)| == 2
  {
    assert Pow10(2) == 100;
    NatToStringWidth(n, 2);
    ZeroPadDigits(n, 2);
  }

  /** The `LIKE` pattern's fixed part: `BILL-<yyyyMMdd>`. */
  function DatePrefix(d: Date): (p: string)
    requires d.Valid()
    ensures |p| == 13
  {
    BILL + DatePart(d)
  }

  /** `String.format("BILL-%s-%04d", datePart, serial)`. */
  function Format(d: Date, serial: nat): string
    requires d.Valid()
  {
    DatePrefix(d) + "-" + ZeroPad(serial, 4)
  }

  /** `SELECT COUNT(*) FROM Bill WHERE bill_no LIKE '<prefix>%'`. */
  function CountWithPrefix(numbers: seq<string>, prefix: string): (n: nat)
    ensures n <= |numbers|
  {
    if numbers == [] then 0
    else CountWithPrefix(numbers[..|numbers| - 1], prefix) + if StartsWith(numbers[|numbers| - 1], prefix) then 1 else 0
  }

  /** `generateBillNo`: the number given to a new bill on date `d`, when the Bill table
      already holds `numbers`. */
  function Generate(d: Date, numbers: seq<string>): (r: string)
    requires d.Valid()
    ensures StartsWith(r, DatePrefix(d))
    ensures CountWithPrefix(numbers + [r], DatePrefix(d)) == CountWithPrefix(numbers, DatePrefix(d)) + 1
  {
    var serial := CountWithPrefix(numbers, DatePrefix(d)) + 1;
    FormatPrefix(d, serial, d);
    CountAppend(numbers, Format(d, serial), DatePrefix(d));
    Format(d, serial)
  }

  /** The literal returned when the count query yields no row. */
  function Fallback(d: Date): string
    requires d.Valid()
  {
    BILL + DatePart(d) + "-0001"
  }

  // ---------------------------------------------------------------------------
  // Properties

  lemma Split3(a: string, b: string, c: string)
    ensures (a + b + c)[..|a|] == a
    ensures (a + b + c)[|a|..|a| + |b|] == b
    ensures (a + b + c)[|a| + |b|..] == c
  {
  }

  lemma Split3Equal(a1: string, b1: string, c1: string, a2: string, b2: string, c2: string)
    requires |a1| == |a2| && |b1| == |b2| && a1 + b1 + c1 == a2 + b2 + c2
    ensures a1 == a2 && b1 == b2 && c1 == c2
  {
    Split3(a1, b1, c1);
    Split3(a2, b2, c2);
  }

  /** Distinct valid dates have distinct `yyyyMMdd` forms. */
  lemma DatePartInjective(d1: Date, d2: Date)
    requires d1.Valid() && d2.Valid() && DatePart(d1) == DatePart(d2)
    ensures d1 == d2
  {
    Pad4Exact(d1.year);
    Pad2Exact(d1.month);
    Pad4Exact(d2.year);
    Pad2Exact(d2.month);
    Split3Equal(ZeroPad(d1.year, 4), ZeroPad(d1.month, 2), ZeroPad(d1.day, 2),
                ZeroPad(d2.year, 4), ZeroPad(d2.month, 2), ZeroPad(d2.day, 2));
    ZeroPadInjective(d1.year, d2.year, 4);
    ZeroPadInjective(d1.month, d2.month, 2);
    ZeroPadInjective(d1.day, d2.day, 2);
  }

  lemma ZeroPadInjective(a: nat, b: nat, width: nat)
    ensures ZeroPad(a, width) == ZeroPad(b, width) ==> a == b
  {
    ZeroPadDigits(a, width);
    ZeroPadDigits(b, width);
  }

  /** A bill number determines its date and its serial. */
  lemma FormatInjective(d1: Date, k1: nat, d2: Date, k2: nat)
    requires d1.Valid() && d2.Valid()
    requires Format(d1, k1) == Format(d2, k2)
    ensures d1 == d2 && k1 == k2
  {
    Split3Equal(DatePrefix(d1), "-", ZeroPad(k1, 4), DatePrefix(d2), "-", ZeroPad(k2, 4));
    ZeroPadInjective(k1, k2, 4);
    assert DatePart(d1) == DatePrefix(d1)[5..] == DatePrefix(d2)[5..] == DatePart(d2);
    DatePartInjective(d1, d2);
  }

  /** A bill number starts with its own date's prefix and with no other. */
  lemma FormatPrefix(d: Date, serial: nat, e: Date)
    requires d.Valid() && e.Valid()
    ensures StartsWith(Format(d, serial), DatePrefix(e)) <==> d == e
  {
    Split3(DatePrefix(d), "-", ZeroPad(serial, 4));
    if StartsWith(Format(d, serial), DatePrefix(e)) {
      assert DatePrefix(d) == DatePrefix(e);
      assert DatePart(d) == DatePrefix(d)[5..] == DatePrefix(e)[5..] == DatePart(e);
      DatePartInjective(d, e);
    }
  }

  /** The number is `BILL-<yyyyMMdd>-` followed by the count plus one in decimal,
      padded with zeros to at least four digits and never truncated. */
  lemma GenerateShape(d: Date, numbers: seq<string>)
    requires d.Valid()
    ensures var g := Generate(d, numbers);
            var k := CountWithPrefix(numbers, DatePrefix(d)) + 1;
            && |g| >= 18
            && g[..14] == BILL + DatePart(d) + "-"
            && AllDigits(g[14..]) && DigitsValue(g[14..]) == k
            && (k < 10000 ==> |g| == 18)
  {
    var k := CountWithPrefix(numbers, DatePrefix(d)) + 1;
    Split3(DatePrefix(d), "-", ZeroPad(k, 4));
    ZeroPadDigits(k, 4);
    if k < 10000 {
      Pad4Exact(k);
    }
  }

  lemma PadOne()
    ensures ZeroPad(1, 4) == "0001"
  {
    assert NatToString(1) == "1";
    assert Zeros(3) == Zeros(2) + ['0'] == Zeros(1) + ['0', '0'] == "000";
  }

  lemma {:induction false} NoneWithPrefix(numbers: seq<string>, p: string)
    requires forall i :: 0 <= i < |numbers| ==> !StartsWith(numbers[i], p)
    ensures CountWithPrefix(numbers, p) == 0
  {
    if numbers != [] {
      NoneWithPrefix(numbers[..|numbers| - 1], p);
    }
  }

  /** With no earlier bill on that date the number is `BILL-<date>-0001`, which is the
      string the fallback literal spells out. */
  lemma FirstOfDay(d: Date, numbers: seq<string>)
    requires d.Valid()
    requires forall i :: 0 <= i < |numbers| ==> !StartsWith(numbers[i], DatePrefix(d))
    ensures Generate(d, numbers) == Fallback(d) == Format(d, 1)
  {
    NoneWithPrefix(numbers, DatePrefix(d));
    PadOne();
  }

  /** Every number of the form `Format(d, k)` in the table has a serial between 1 and the
      count of numbers with that date's prefix. Holds of the empty table and is kept by
      issuing numbers with `Generate`. */
  ghost predicate WellNumbered(numbers: seq<string>)
  {
    forall d: Date, k: nat ::
      d.Valid() && Format(d, k) in numbers ==> 1 <= k <= CountWithPrefix(numbers, DatePrefix(d))
  }

  lemma CountAppend(numbers: seq<string>, x: string, p: string)
    ensures CountWithPrefix(numbers + [x], p) == CountWithPrefix(numbers, p) + if StartsWith(x, p) then 1 else 0
  {
    var next := numbers + [x];
    assert next[..|next| - 1] == numbers;
  }

  /** A generated number is new, and issuing it keeps the table well numbered. */
  lemma GenerateIsFresh(d: Date, numbers: seq<string>)
    requires d.Valid() && WellNumbered(numbers)
    ensures Generate(d, numbers) !in numbers
    ensures WellNumbered(numbers + [Generate(d, numbers)])
  {
    var c := CountWithPrefix(numbers, DatePrefix(d));
    var g := Format(d, c + 1);
    assert g == Generate(d, numbers);
    forall e: Date, k: nat | e.Valid() && Format(e, k) in numbers + [g]
      ensures 1 <= k <= CountWithPrefix(numbers + [g], DatePrefix(e))
    {
      if Format(e, k) in numbers {
        assert 1 <= k <= CountWithPrefix(numbers, DatePrefix(e));
      }
      SerialBoundStep(numbers, d, c, e, k);
    }
  }

  /** One number of the extended table: either it was there before, and its bound only
      grows, or it is the new one, whose serial is the new count. */
  lemma SerialBoundStep(numbers: seq<string>, d: Date, c: nat, e: Date, k: nat)
    requires d.Valid() && e.Valid()
    requires c == CountWithPrefix(numbers, DatePrefix(d))
    requires Format(e, k) in numbers + [Format(d, c + 1)]
    requires Format(e, k) in numbers ==> 1 <= k <= CountWithPrefix(numbers, DatePrefix(e))
    ensures 1 <= k <= CountWithPrefix(numbers + [Format(d, c + 1)], DatePrefix(e))
  {
    var g := Format(d, c + 1);
    CountAppend(numbers, g, DatePrefix(e));
    if Format(e, k) == g {
      FormatInjective(e, k, d, c + 1);
      FormatPrefix(d, c + 1, d);
    }
  }

  /** The numbers issued for bills created on `dates`, one after another. */
  function Issued(dates: seq<Date>): (numbers: seq<string>)
    requires forall i :: 0 <= i < |dates| ==> dates[i].Valid()
    ensures |numbers| == |dates|
  {
    if dates == [] then []
    else
      var earlier := Issued(dates[..|dates| - 1]);
      earlier + [Generate(dates[|dates| - 1], earlier)]
  }

  /** Bills created one after another never share a number. */
  lemma {:induction false} IssuedDistinct(dates: seq<Date>)
    requires forall i :: 0 <= i < |dates| ==> dates[i].Valid()
    ensures WellNumbered(Issued(dates))
    ensures forall i, j :: 0 <= i < j < |dates| ==> Issued(dates)[i] != Issued(dates)[j]
  {
    if dates != [] {
      var front := dates[..|dates| - 1];
      IssuedDistinct(front);
      GenerateIsFresh(dates[|dates| - 1], Issued(front));
    }
  }
}
