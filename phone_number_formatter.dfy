/**
 * PhoneNumberFormatter: the progressive North-American phone mask
 * "(ddd)-ddd-dddd", the digit filter and the 10-digit validity check.
 */
module PhoneNumberFormatter {
  import opened Text

  /** deformat: keeps exactly the digits of the input, in order. */
  function Deformat(input: string): (digits: string)
    ensures AllDigits(digits)
    ensures |digits| <= |input|
  {
    if input == [] then []
    else (if IsDigit(input[0]) then [input[0]] else []) + Deformat(input[1..])
  }

  /** isValid: the input holds exactly ten digits, whatever else it holds. */
  function IsValid(input: string): bool {
    |Deformat(input)| == 10
  }

  /**
   * The mask as a table of cases on the number of digits: nothing, an open
   * area code, a complete area code and the exchange, and the full number.
   * Digits beyond the tenth are dropped.
   */
  function Mask(d: string): (r: string)
    ensures |r| <= 14
  {
    if |d| == 0 then ""
    else if |d| <= 3 then "(" + d
    else if |d| <= 6 then "(" + d[..3] + ")-" + d[3..]
    else "(" + d[..3] + ")-" + d[3..6] + "-" + d[6..Min(|d|, 10)]
  }

  /**
   * format: filters the digits, then appends to a builder: "(" when there is
   * a digit, the first three digits one at a time, ")-" and the next three
   * when there are more than three, "-" and digits seven to ten when there
   * are more than six.
   */
  method Format(input: string) returns (formatted: string)
    ensures formatted == Mask(Deformat(input))
  {
    var digits := Deformat(input);
    var n := |digits|;
    formatted := "";
    if n > 0 {
      formatted := formatted + "(";
    }
    var firstThree := digits[..Min(n, 3)];
    var opening := formatted;
    var i := 0;
    while i < |firstThree|
      invariant 0 <= i <= |firstThree|
      invariant formatted == opening + firstThree[..i]
    {
      assert firstThree[..i + 1] == firstThree[..i] + [firstThree[i]];
      formatted := formatted + [firstThree[i]];
      i := i + 1;
    }
    assert firstThree[..i] == firstThree;
    if n > 3 {
      formatted := formatted + ")-";
    }
    if n > 3 {
      formatted := formatted + digits[3..Min(n, 6)];
    }
    assert formatted == opening + firstThree + Exchange(digits);
    if n > 6 {
      formatted := formatted + "-";
      formatted := formatted + digits[6..Min(n, 10)];
    }
    assert formatted == opening + firstThree + Exchange(digits) + LineNumber(digits);
    MaskByAppends(digits);
  }

  /** The part of the builder after the area code: ")-" and up to three digits, once there are more than three. */
  function Exchange(d: string): string {
    if |d| > 3 then ")-" + d[3..Min(|d|, 6)] else ""
  }

  /** The last part of the builder: "-" and up to four digits, once there are more than six. */
  function LineNumber(d: string): string {
    if |d| > 6 then "-" + d[6..Min(|d|, 10)] else ""
  }

  /** The builder's sequence of conditional appends produces the case table. */
  lemma MaskByAppends(d: string)
    ensures Mask(d) == (if |d| > 0 then "(" else "") + d[..Min(|d|, 3)] + Exchange(d) + LineNumber(d)
  {
    if 0 < |d| <= 3 {
      assert d[..|d|] == d;
    }
  }

  // ---------------------------------------------------------------------------
  // Properties of the digit filter
  // ---------------------------------------------------------------------------

  lemma {:induction false} DeformatAppend(a: string, b: string)
    ensures Deformat(a + b) == Deformat(a) + Deformat(b)
  {
    if a != [] {
      var head := if IsDigit(a[0]) then [a[0]] else [];
      assert (a + b)[0] == a[0] && (a + b)[1..] == a[1..] + b;
      DeformatAppend(a[1..], b);
      calc {
        Deformat(a + b);
        head + Deformat(a[1..] + b);
        head + (Deformat(a[1..]) + Deformat(b));
        (head + Deformat(a[1..])) + Deformat(b);
        Deformat(a) + Deformat(b);
      }
    } else {
      assert a + b == b;
    }
  }

  /** A single character is kept when it is a digit and dropped otherwise. */
  lemma DeformatOneChar(c: char)
    ensures IsDigit(c) ==> Deformat([c]) == [c]
    ensures !IsDigit(c) ==> Deformat([c]) == []
  {
    assert [c][1..] == [];
  }

  /**
   * Non-digits are dropped, not replaced: removing a non-digit anywhere in the
   * input leaves the filtered result unchanged, while a digit stays in place
   * between the digits before it and the digits after it.
   */
  lemma DeformatAroundChar(a: string, c: char, b: string)
    ensures !IsDigit(c) ==> Deformat(a + [c] + b) == Deformat(a) + Deformat(b)
    ensures IsDigit(c) ==> Deformat(a + [c] + b) == Deformat(a) + [c] + Deformat(b)
  {
    DeformatAppend(a + [c], b);
    DeformatAppend(a, [c]);
    DeformatOneChar(c);
  }

  /** The filter changes a string exactly when the string holds a non-digit. */
  lemma {:induction false} DeformatUnchangedIff(s: string)
    ensures Deformat(s) == s <==> AllDigits(s)
  {
    if s != [] {
      DeformatUnchangedIff(s[1..]);
      if AllDigits(s) {
        assert AllDigits(s[1..]);
        assert [s[0]] + s[1..] == s;
      }
    }
  }

  /** deformat is idempotent, so format(s) == format(deformat(s)). */
  lemma DeformatIdempotent(s: string)
    ensures Deformat(Deformat(s)) == Deformat(s)
    ensures Mask(Deformat(Deformat(s))) == Mask(Deformat(s))
  {
    DeformatUnchangedIff(Deformat(s));
  }

  // ---------------------------------------------------------------------------
  // Properties of the mask
  // ---------------------------------------------------------------------------

  /** Punctuation followed by digits deformats to those digits. */
  lemma DeformatPunctuatedDigits(punctuation: string, digits: string)
    requires Deformat(punctuation) == "" && AllDigits(digits)
    ensures Deformat(punctuation + digits) == digits
  {
    DeformatAppend(punctuation, digits);
    DeformatUnchangedIff(digits);
  }

  lemma DeformatExchange(d: string)
    requires AllDigits(d)
    ensures Deformat(Exchange(d)) == d[Min(|d|, 3)..Min(|d|, 6)]
  {
    if |d| > 3 {
      assert Deformat(")-") == "";
      DeformatPunctuatedDigits(")-", d[3..Min(|d|, 6)]);
    }
  }

  lemma DeformatLineNumber(d: string)
    requires AllDigits(d)
    ensures Deformat(LineNumber(d)) == d[Min(|d|, 6)..Min(|d|, 10)]
  {
    if |d| > 6 {
      assert Deformat("-") == "";
      DeformatPunctuatedDigits("-", d[6..Min(|d|, 10)]);
    }
  }

  /** Deformatting the builder's appends keeps the three digit groups and drops the punctuation. */
  lemma DeformatAppends(d: string)
    requires AllDigits(d)
    ensures Deformat((if |d| > 0 then "(" else "") + d[..Min(|d|, 3)] + Exchange(d) + LineNumber(d))
      == d[..Min(|d|, 3)] + d[Min(|d|, 3)..Min(|d|, 6)] + d[Min(|d|, 6)..Min(|d|, 10)]
  {
    var opening := if |d| > 0 then "(" else "";
    var head := opening + d[..Min(|d|, 3)];
    assert Deformat(opening) == "";
    DeformatPunctuatedDigits(opening, d[..Min(|d|, 3)]);
    DeformatExchange(d);
    DeformatLineNumber(d);
    DeformatAppend(head, Exchange(d));
    DeformatAppend(head + Exchange(d), LineNumber(d));
  }

  lemma ConsecutiveSlices(d: string, i: nat, j: nat, k: nat)
    requires i <= j <= k <= |d|
    ensures d[..i] + d[i..j] + d[j..k] == d[..k]
  {
  }

  /** Deformatting the mask gives back the digits it was given, up to the tenth. */
  lemma DeformatMask(d: string)
    requires AllDigits(d)
    ensures Deformat(Mask(d)) == d[..Min(|d|, 10)]
  {
    MaskByAppends(d);
    DeformatAppends(d);
    ConsecutiveSlices(d, Min(|d|, 3), Min(|d|, 6), Min(|d|, 10));
  }

  /** Round trip: a digit string of at most ten digits survives format then deformat. */
  lemma DeformatFormatRoundTrip(d: string)
    requires AllDigits(d) && |d| <= 10
    ensures Deformat(Mask(d)) == d
    ensures Mask(Deformat(Mask(d))) == Mask(d)
  {
    DeformatMask(d);
    assert d[..|d|] == d;
  }

  /** The mask of a digit string is valid exactly when the string has ten or more digits. */
  lemma MaskValidIff(d: string)
    requires AllDigits(d)
    ensures IsValid(Mask(d)) <==> |d| >= 10
  {
    DeformatMask(d);
  }

  /** The mask is empty exactly when there are no digits. */
  lemma MaskEmptyIff(d: string)
    ensures Mask(d) == "" <==> d == ""
  {
    if d != "" {
      assert Mask(d)[0] == '(';
    }
  }

  /**
   * The mask is progressive: below ten digits, one more digit only extends
   * the displayed text (the old text is a proper prefix of the new one);
   * from ten digits on, further digits change nothing.
   */
  lemma MaskAppendDigit(d: string, c: char)
    ensures |d| < 10 ==> Mask(d) < Mask(d + [c])
    ensures |d| >= 10 ==> Mask(d + [c]) == Mask(d)
  {
    var e := d + [c];
    assert e[..|d|] == d;
    if |d| >= 10 {
      assert e[..3] == d[..3] && e[3..6] == d[3..6] && e[6..10] == d[6..10];
    } else if |d| == 0 {
    } else if |d| < 3 {
      assert "(" + e == ("(" + d) + [c];
    } else if |d| == 3 {
      assert e[..3] == d && e[3..] == [c];
    } else if |d| < 6 {
      assert e[..3] == d[..3] && e[3..] == d[3..] + [c];
    } else if |d| == 6 {
      assert e[..3] == d[..3] && e[3..6] == d[3..] && e[6..7] == [c];
    } else {
      assert e[..3] == d[..3] && e[3..6] == d[3..6] && e[6..|e|] == d[6..] + [c];
    }
  }

  /** A full ten-digit number is laid out as (416)-555-1234 and is valid. */
  lemma FormatExampleComplete()
    ensures Mask("4165551234") == "(416)-555-1234" && IsValid("(416)-555-1234")
  {
    var d := "4165551234";
    assert d[..3] == "416" && d[3..6] == "555" && d[6..10] == "1234";
    assert AllDigits(d);
    MaskValidIff(d);
  }

  /** Three digits give an open area code, which is not yet valid. */
  lemma FormatExampleAreaCode()
    ensures Mask("416") == "(416" && !IsValid("(416")
  {
    assert AllDigits("416");
    MaskValidIff("416");
  }
}
