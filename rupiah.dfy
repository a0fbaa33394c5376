/** Option, for results that may be absent. */
module Options {
  datatype Option<+T> = None | Some(value: T)
}

/** How the rule-based insight writes a money figure: Python's `{x:,.0f}`
    format, i.e. the decimal digits of the amount with a comma before every
    group of three counted from the right, a leading minus sign for a negative
    amount and no fractional part. Amounts here are exact integers (Python
    goes through a double first, which rounds amounts beyond 2^53; that is not
    modelled). `GroupThousandsLayout` says where the commas stand;
    `ParseAmount` reads a figure back, and `ParseFormatRoundTrip` proves that
    this formatter misrepresents no integer. */
module Rupiah {
  import opened Options

  predicate IsDigit(c: char) {
    '0' <= c <= '9'
  }

  predicate AllDigits(s: string) {
    forall i :: 0 <= i < |s| ==> IsDigit(s[i])
  }

  function DigitChar(d: nat): (c: char)
    requires d < 10
    ensures IsDigit(c) && c as int - '0' as int == d
  {
    (d + '0' as int) as char
  }

  /** The decimal digits of `n`, without leading zeros. */
  function Decimal(n: nat): string {
    if n < 10 then [DigitChar(n)] else Decimal(n / 10) + [DigitChar(n % 10)]
  }

  /** Exactly three digits, zero-padded: the groups after the first. */
  function ThreeDigits(n: nat): string
    requires n < 1000
  {
    [DigitChar(n / 100), DigitChar(n / 10 % 10), DigitChar(n % 10)]
  }

  /** The digits of `n` with a comma before every group of three. */
  function GroupThousands(n: nat): string {
    if n < 1000 then Decimal(n) else GroupThousands(n / 1000) + "," + ThreeDigits(n % 1000)
  }

  /** `{x:,.0f}` on an integral amount. */
  function FormatAmount(x: int): string {
    if x < 0 then "-" + GroupThousands(-x) else GroupThousands(x)
  }

  // ---------------------------------------------------------------------------
  // Reading a figure back
  // ---------------------------------------------------------------------------

  function StripSeparators(s: string): string {
    if s == [] then [] else (if s[0] == ',' then "" else [s[0]]) + StripSeparators(s[1..])
  }

  function DigitsValue(s: string): nat
    requires AllDigits(s)
  {
    if s == [] then 0
    else DigitsValue(s[..|s| - 1]) * 10 + (s[|s| - 1] as int - '0' as int)
  }

  /** The amount a formatted figure stands for, if it is one. */
  function ParseAmount(s: string): Option<int> {
    if |s| > 0 && s[0] == '-' then
      var digits := StripSeparators(s[1..]);
      if digits != [] && AllDigits(digits) then Some(0 - DigitsValue(digits)) else None
    else
      var digits := StripSeparators(s);
      if digits != [] && AllDigits(digits) then Some(DigitsValue(digits)) else None
  }

  /** Every amount is written so that it reads back as itself: no digit is
      lost, no group is mis-padded and the sign survives. */
  lemma ParseFormatRoundTrip(x: int)
    ensures ParseAmount(FormatAmount(x)) == Some(x)
  {
    var n: nat := if x < 0 then -x else x;
    GroupedValue(n);
    if x < 0 {
      assert ("-" + GroupThousands(n))[1..] == GroupThousands(n);
    } else {
      GroupedStartsWithDigit(n);
    }
  }

  /** A formatted figure uses only digits, commas and a leading minus sign,
      and its first digit comes right at the start, or right after the minus
      sign: it never begins with a comma. */
  lemma {:induction false} FormatAmountShape(x: int)
    ensures var s := FormatAmount(x);
      && |s| > 0
      && (x < 0 <==> s[0] == '-')
      && (x >= 0 ==> IsDigit(s[0]))
      && (x < 0 ==> |s| > 1 && IsDigit(s[1]))
      && forall i :: 0 < i < |s| ==> IsDigit(s[i]) || s[i] == ','
  {
    var n: nat := if x < 0 then -x else x;
    GroupedStartsWithDigit(n);
    GroupedCharacters(n);
  }

  /** The grouped figure is the plain decimal digits of `n` with a comma
      exactly at every fourth place counted from the right end, so the
      first group has one to three digits and every later group three. */
  lemma GroupThousandsLayout(n: nat)
    ensures var g := GroupThousands(n);
      && StripSeparators(g) == Decimal(n)
      && |g| > 0 && IsDigit(g[0])
      && (forall i :: 0 <= i < |g| ==> (g[i] == ',' <==> (|g| - i) % 4 == 0))
      && (forall i :: 0 <= i < |g| ==> g[i] != ',' ==> IsDigit(g[i]))
  {
    GroupedDigits(n);
    GroupedStartsWithDigit(n);
    GroupedCommas(n);
    GroupedCharacters(n);
  }

  lemma {:induction false} GroupedDigits(n: nat)
    ensures StripSeparators(GroupThousands(n)) == Decimal(n)
  {
    if n < 1000 {
      DecimalValue(n);
      StripDigits(Decimal(n));
    } else {
      GroupedDigits(n / 1000);
      var head := GroupThousands(n / 1000);
      var tail := ThreeDigits(n % 1000);
      ThreeDigitsValue(n % 1000);
      StripAppend(head + ",", tail);
      StripAppend(head, ",");
      assert StripSeparators(",") == "";
      StripDigits(tail);
      DecimalSplit(n);
    }
  }

  lemma {:induction false} GroupedCommas(n: nat)
    ensures forall i :: 0 <= i < |GroupThousands(n)| ==>
              (GroupThousands(n)[i] == ',' <==> (|GroupThousands(n)| - i) % 4 == 0)
  {
    var g := GroupThousands(n);
    if n < 1000 {
      DecimalValue(n);
      DecimalShort(n);
    } else {
      GroupedCommas(n / 1000);
      var head := GroupThousands(n / 1000);
      var tail := ThreeDigits(n % 1000);
      assert g == head + "," + tail;
      assert |tail| == 3 && |g| == |head| + 4;
      forall i | 0 <= i < |g| ensures (g[i] == ',' <==> (|g| - i) % 4 == 0)
      {
        if i < |head| {
          assert g[i] == head[i];
          assert head[i] == ',' <==> (|head| - i) % 4 == 0;
          assert (|g| - i) % 4 == (|head| - i) % 4;
        } else if i > |head| {
          assert g[i] == tail[i - |head| - 1] && IsDigit(tail[i - |head| - 1]);
          assert 1 <= |g| - i <= 3;
        }
      }
    }
  }

  /** A number below a thousand has at most three digits. */
  lemma {:induction false} DecimalShort(n: nat)
    requires n < 1000
    ensures |Decimal(n)| <= 3
  {
    if n >= 10 {
      if n >= 100 {
        DecimalShort(n / 10);
        assert n / 10 / 10 < 10;
      }
    }
  }

  /** The last three digits of `n` form its lowest group. */
  lemma DecimalSplit(n: nat)
    requires n >= 1000
    ensures Decimal(n) == Decimal(n / 1000) + ThreeDigits(n % 1000)
  {
    assert n / 10 >= 10 && n / 100 >= 10;
    assert n / 10 / 10 == n / 100 && n / 100 / 10 == n / 1000;
    assert n / 100 % 10 == n % 1000 / 100;
    assert n / 10 % 10 == n % 1000 / 10 % 10;
    assert n % 10 == n % 1000 % 10;
    calc {
      Decimal(n);
      Decimal(n / 10) + [DigitChar(n % 10)];
      Decimal(n / 100) + [DigitChar(n / 10 % 10)] + [DigitChar(n % 10)];
      Decimal(n / 1000) + [DigitChar(n / 100 % 10)] + [DigitChar(n / 10 % 10)] + [DigitChar(n % 10)];
      Decimal(n / 1000) + ThreeDigits(n % 1000);
    }
  }

  lemma {:induction false} DecimalValue(n: nat)
    ensures Decimal(n) != [] && AllDigits(Decimal(n)) && DigitsValue(Decimal(n)) == n
  {
    if n >= 10 {
      DecimalValue(n / 10);
      var s := Decimal(n);
      assert s[..|s| - 1] == Decimal(n / 10);
    }
  }

  lemma ThreeDigitsValue(n: nat)
    requires n < 1000
    ensures AllDigits(ThreeDigits(n)) && DigitsValue(ThreeDigits(n)) == n
  {
    var s := ThreeDigits(n);
    AppendDigit([], s[0]);
    AppendDigit([s[0]], s[1]);
    AppendDigit([s[0], s[1]], s[2]);
    assert [s[0]] == [] + [s[0]] && [s[0], s[1]] == [s[0]] + [s[1]] && s == [s[0], s[1]] + [s[2]];
  }

  lemma AppendDigit(a: string, c: char)
    requires AllDigits(a) && IsDigit(c)
    ensures AllDigits(a + [c]) && DigitsValue(a + [c]) == DigitsValue(a) * 10 + (c as int - '0' as int)
  {
  }

  lemma {:induction false} StripAppend(a: string, b: string)
    ensures StripSeparators(a + b) == StripSeparators(a) + StripSeparators(b)
  {
    if a != [] {
      var first := if a[0] == ',' then "" else [a[0]];
      assert (a + b)[0] == a[0] && (a + b)[1..] == a[1..] + b;
      StripAppend(a[1..], b);
      calc {
        StripSeparators(a + b);
        first + StripSeparators(a[1..] + b);
        first + (StripSeparators(a[1..]) + StripSeparators(b));
        (first + StripSeparators(a[1..])) + StripSeparators(b);
        StripSeparators(a) + StripSeparators(b);
      }
    } else {
      assert a + b == b;
    }
  }

  lemma {:induction false} StripDigits(s: string)
    requires AllDigits(s)
    ensures StripSeparators(s) == s
  {
    if s != [] {
      StripDigits(s[1..]);
    }
  }

  lemma AppendThreeValue(a: string, b: string)
    requires AllDigits(a) && AllDigits(b) && |b| == 3
    ensures AllDigits(a + b) && DigitsValue(a + b) == DigitsValue(a) * 1000 + DigitsValue(b)
  {
    AppendDigit(a, b[0]);
    AppendDigit(a + [b[0]], b[1]);
    AppendDigit(a + [b[0], b[1]], b[2]);
    assert a + [b[0]] + [b[1]] == a + [b[0], b[1]];
    assert a + [b[0], b[1]] + [b[2]] == a + b;
    ThreeDigitsRead(b);
  }

  lemma ThreeDigitsRead(b: string)
    requires AllDigits(b) && |b| == 3
    ensures DigitsValue(b) == ((b[0] as int - '0' as int) * 10 + (b[1] as int - '0' as int)) * 10 + (b[2] as int - '0' as int)
  {
    AppendDigit([], b[0]);
    AppendDigit([b[0]], b[1]);
    AppendDigit([b[0], b[1]], b[2]);
    assert [b[0]] == [] + [b[0]] && [b[0], b[1]] == [b[0]] + [b[1]] && b == [b[0], b[1]] + [b[2]];
  }

  /** Removing the commas from a grouped figure leaves the plain digits of `n`. */
  lemma {:induction false} GroupedValue(n: nat)
    ensures var d := StripSeparators(GroupThousands(n));
      d != [] && AllDigits(d) && DigitsValue(d) == n
  {
    if n < 1000 {
      DecimalValue(n);
      StripDigits(Decimal(n));
    } else {
      GroupedValue(n / 1000);
      var head := GroupThousands(n / 1000);
      var tail := ThreeDigits(n % 1000);
      ThreeDigitsValue(n % 1000);
      StripAppend(head + ",", tail);
      StripAppend(head, ",");
      assert StripSeparators(",") == "";
      assert GroupThousands(n) == head + "," + tail;
      StripDigits(tail);
      AppendThreeValue(StripSeparators(head), tail);
      assert StripSeparators(GroupThousands(n)) == StripSeparators(head) + tail;
      assert (n / 1000) * 1000 + n % 1000 == n;
    }
  }

  lemma {:induction false} GroupedStartsWithDigit(n: nat)
    ensures |GroupThousands(n)| > 0 && IsDigit(GroupThousands(n)[0])
  {
    if n < 1000 {
      DecimalValue(n);
    } else {
      GroupedStartsWithDigit(n / 1000);
    }
  }

  lemma {:induction false} GroupedCharacters(n: nat)
    ensures forall i :: 0 <= i < |GroupThousands(n)| ==> IsDigit(GroupThousands(n)[i]) || GroupThousands(n)[i] == ','
  {
    if n < 1000 {
      DecimalValue(n);
    } else {
      GroupedCharacters(n / 1000);
    }
  }
}
