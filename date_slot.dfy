/**
 * Reading the DATE slot: `datetime.strptime(date, '%Y-%m-%d')` followed by
 * `.month` and `.day`, for zero-padded `YYYY-MM-DD` values.
 */
module DateSlot {
  import opened Wrappers
  import opened Errors
  import opened Decimal

  /** `n` written with exactly `width` digits, zero-padded on the left. */
  function Pad(n: nat, width: nat): (s: string)
    ensures |s| == width && AllDigits(s)
  {
    if width == 0 then [] else Pad(n / 10, width - 1) + [DigitChar(n % 10)]
  }

  /** A number that fits in `width` digits reads back from its padded spelling. */
  lemma {:induction false} PadValue(n: nat, width: nat)
    requires n < Pow10(width)
    ensures DecimalValue(Pad(n, width)) == n
  {
    if width > 0 {
      var s := Pad(n, width);
      assert s[..|s| - 1] == Pad(n / 10, width - 1);
      assert n / 10 < Pow10(width - 1);
      PadValue(n / 10, width - 1);
    }
  }

  /** Every digit string is the padded spelling of its own value. */
  lemma {:induction false} PadOfDigits(s: string)
    requires AllDigits(s)
    ensures Pad(DecimalValue(s), |s|) == s
  {
    if s != [] {
      var init, c := s[..|s| - 1], s[|s| - 1];
      var v := DecimalValue(s);
      assert v == 10 * DecimalValue(init) + DigitValue(c);
      assert v / 10 == DecimalValue(init) && v % 10 == DigitValue(c);
      PadOfDigits(init);
      assert s == init + [c];
    }
  }

  /** The shape `DDDD-DD-DD`. */
  predicate DateShape(s: string)
  {
    && |s| == 10
    && s[4] == '-' && s[7] == '-'
    && AllDigits(s[..4]) && AllDigits(s[5..7]) && AllDigits(s[8..])
  }

  /** The zero-padded `YYYY-MM-DD` spelling of a date. */
  function FormatDate(year: nat, month: nat, day: nat): (s: string)
    requires year < 10000 && month < 100 && day < 100
    ensures DateShape(s)
  {
    var s := Pad(year, 4) + "-" + Pad(month, 2) + "-" + Pad(day, 2);
    assert s[..4] == Pad(year, 4) && s[5..7] == Pad(month, 2) && s[8..] == Pad(day, 2);
    s
  }

  /**
   * (month, day) of a DATE slot value, or the ValueError that strptime raises:
   * the value must be four year digits, two month digits from 01 to 12 and two
   * day digits from 01 to 31, separated by '-'.
   */
  function ParseDateSlot(s: string): (r: Result<(int, int), Error>)
    ensures r.Success? ==> 1 <= r.value.0 <= 12 && 1 <= r.value.1 <= 31
    ensures r.Failure? ==> r.error == MalformedDate
  {
    if !DateShape(s) then Failure(MalformedDate)
    else
      var month := DecimalValue(s[5..7]);
      var day := DecimalValue(s[8..]);
      if 1 <= month <= 12 && 1 <= day <= 31 then Success((month, day)) else Failure(MalformedDate)
  }

  /** Every printed date parses back to its month and day. */
  lemma FormatThenParse(year: nat, month: nat, day: nat)
    requires year < 10000 && 1 <= month <= 12 && 1 <= day <= 31
    ensures ParseDateSlot(FormatDate(year, month, day)) == Success((month, day))
  {
    var s := FormatDate(year, month, day);
    assert s[5..7] == Pad(month, 2) && s[8..] == Pad(day, 2);
    assert Pow10(2) == 100 by {
      assert Pow10(1) == 10;
    }
    PadValue(month, 2);
    PadValue(day, 2);
  }

  /** Only printed dates parse: an accepted value is the spelling of its own year, month and day. */
  lemma ParseOnlyPrinted(s: string)
    requires ParseDateSlot(s).Success?
    ensures DateShape(s)
    ensures var (month, day) := ParseDateSlot(s).value;
      s == FormatDate(DecimalValue(s[..4]), month, day)
  {
    PadOfDigits(s[..4]);
    PadOfDigits(s[5..7]);
    PadOfDigits(s[8..]);
    assert s == s[..4] + "-" + s[5..7] + "-" + s[8..];
  }

  /** The slot value "2020-07-04" is July 4. */
  lemma July4Slot()
    ensures ParseDateSlot("2020-07-04") == Success((7, 4))
  {
    assert FormatDate(2020, 7, 4) == "2020-07-04";
    FormatThenParse(2020, 7, 4);
  }
}
