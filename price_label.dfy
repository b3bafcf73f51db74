/**
 * The price marker embedded in a customization option's text, such as
 * "Large (+$6)" or "Chicken (+$2.50)". The product dialog finds the first
 * occurrence of `(+$` digits, optionally `.` and exactly two digits, then `)`,
 * and adds that amount to the unit price; a text without such a marker adds
 * nothing. Amounts are in integer cents.
 */
module PriceLabel {
  import opened Sequences

  predicate IsDigit(c: char) {
    '0' <= c <= '9'
  }

  predicate AllDigits(s: string) {
    forall i :: 0 <= i < |s| ==> IsDigit(s[i])
  }

  /** The value of a decimal digit string (most significant digit first). */
  function DigitsValue(s: string): nat
    requires AllDigits(s)
  {
    if s == [] then 0 else DigitsValue(s[..|s| - 1]) * 10 + (s[|s| - 1] as int - '0' as int)
  }

  /** The length of the run of digits that starts at position `i`. */
  function DigitRun(s: string, i: nat): (n: nat)
    requires i <= |s|
    ensures i + n <= |s|
    ensures forall k :: i <= k < i + n ==> IsDigit(s[k])
    ensures i + n < |s| ==> !IsDigit(s[i + n])
    decreases |s| - i
  {
    if i < |s| && IsDigit(s[i]) then 1 + DigitRun(s, i + 1) else 0
  }

  /**
   * The amount, in cents, of a marker that starts exactly at position `i`, if one does.
   * The integer digits are the whole run (the pattern's `\d+` is followed by `.` or `)`,
   * neither of which is a digit, so no shorter run can match either).
   */
  function MarkerAt(s: string, i: nat): Option<nat>
    requires i <= |s|
  {
    if i + 3 <= |s| && s[i] == '(' && s[i + 1] == '+' && s[i + 2] == '$' then
      var n := DigitRun(s, i + 3);
      var j := i + 3 + n;
      if n == 0 then None
      else if j + 4 <= |s| && s[j] == '.' && IsDigit(s[j + 1]) && IsDigit(s[j + 2]) && s[j + 3] == ')' then
        Some(DigitsValue(s[i + 3..j]) * 100 + DigitsValue(s[j + 1..j + 3]))
      else if j < |s| && s[j] == ')' then
        Some(DigitsValue(s[i + 3..j]) * 100)
      else None
    else None
  }

  /** The leftmost marker at or after position `i`; 0 when there is none. */
  function DeltaFrom(s: string, i: nat): nat
    requires i <= |s|
    decreases |s| - i
  {
    match MarkerAt(s, i)
    case Some(v) => v
    case None => if i < |s| then DeltaFrom(s, i + 1) else 0
  }

  /** The price delta an option text contributes. */
  function OptionDelta(text: string): nat {
    DeltaFrom(text, 0)
  }

  // ---------------------------------------------------------------------------
  // Rendering a marker: the inverse of the parse

  function DigitChar(d: nat): char
    requires d < 10
  {
    ('0' as int + d) as char
  }

  /** The decimal digits of `n`, without leading zeros. */
  function NatDigits(n: nat): (s: string)
    ensures |s| >= 1 && AllDigits(s)
    decreases n
  {
    if n < 10 then [DigitChar(n)] else NatDigits(n / 10) + [DigitChar(n % 10)]
  }

  /** The marker an option label carries for an extra charge of `cents`: "(+$N)" or "(+$N.NN)". */
  function Marker(cents: nat): string {
    "(+$" + NatDigits(cents / 100) + MarkerTail(cents % 100)
  }

  /** What follows the whole amount: ")" for a round amount, otherwise ".NN)". */
  function MarkerTail(frac: nat): string
    requires frac < 100
  {
    if frac == 0 then ")" else "." + [DigitChar(frac / 10), DigitChar(frac % 10)] + ")"
  }

  lemma {:induction false} NatDigitsValue(n: nat)
    ensures DigitsValue(NatDigits(n)) == n
    decreases n
  {
    if n >= 10 {
      var s := NatDigits(n);
      assert s[..|s| - 1] == NatDigits(n / 10);
      NatDigitsValue(n / 10);
    }
  }

  /** A label whose text before the marker has no '+' contributes exactly the marker's amount. */
  lemma MarkerRoundTrip(name: string, cents: nat)
    requires '+' !in name
    ensures OptionDelta(name + Marker(cents)) == cents
  {
    var s := name + Marker(cents);
    NoMarkerBefore(s, 0, |name|);
    MarkerAtName(name, cents);
  }

  /** Scanning skips positions where no marker can start. */
  lemma {:induction false} NoMarkerBefore(s: string, i: nat, m: nat)
    requires i <= m <= |s|
    requires forall k :: i < k < m + 1 && k < |s| ==> s[k] != '+'
    ensures DeltaFrom(s, i) == DeltaFrom(s, m)
    decreases m - i
  {
    if i < m {
      assert MarkerAt(s, i) == None by {
        if i + 1 < |s| {
          assert s[i + 1] != '+';
        }
      }
      NoMarkerBefore(s, i + 1, m);
    }
  }

  lemma MarkerAtName(name: string, cents: nat)
    ensures MarkerAt(name + Marker(cents), |name|) == Some(cents)
  {
    var q, frac := cents / 100, cents % 100;
    DivMod100(cents);
    assert q * 100 + frac == cents;
    var whole, tail := NatDigits(q), MarkerTail(frac);
    var s := name + Marker(cents);
    assert s == name + "(+$" + whole + tail;
    MarkerLayout(name, whole, tail);
    ParseLaidOut(s, |name|, q, frac);
  }

  /** The parse of `s` at `i`, given that the marker for `q` whole units and `frac` cents is laid out there. */
  lemma ParseLaidOut(s: string, i: nat, q: nat, frac: nat)
    requires frac < 100
    requires var whole, tail := NatDigits(q), MarkerTail(frac);
      && |s| == i + 3 + |whole| + |tail|
      && s[i] == '(' && s[i + 1] == '+' && s[i + 2] == '$'
      && s[i + 3..i + 3 + |whole|] == whole
      && (forall k :: 0 <= k < |tail| ==> s[i + 3 + |whole| + k] == tail[k])
    ensures MarkerAt(s, i) == Some(q * 100 + frac)
  {
    var j := i + 3 + |NatDigits(q)|;
    TailValue(s, j, frac);
    WholeRun(s, i + 3, j, q);
    MarkerAtParts(s, i, j, frac);
  }

  /** The rendered whole amount `q`, sitting between `i` and a non-digit at `j`, is read back as one run worth `q`. */
  lemma WholeRun(s: string, i: nat, j: nat, q: nat)
    requires i <= j < |s| && !IsDigit(s[j])
    requires s[i..j] == NatDigits(q)
    ensures DigitRun(s, i) == j - i
    ensures AllDigits(s[i..j]) && DigitsValue(s[i..j]) == q
  {
    forall k | i <= k < j ensures IsDigit(s[k]) {
      assert s[k] == s[i..j][k - i];
    }
    DigitRunOfDigits(s, i, j);
    NatDigitsValue(q);
  }

  lemma DivMod100(n: nat)
    ensures n / 100 * 100 + n % 100 == n
  {
  }

  /** Where the pieces of `name + "(+$" + whole + tail` sit. */
  lemma MarkerLayout(name: string, whole: string, tail: string)
    requires AllDigits(whole) && |tail| >= 1 && !IsDigit(tail[0])
    ensures var s, i := name + "(+$" + whole + tail, |name|;
      && |s| == i + 3 + |whole| + |tail|
      && s[i] == '(' && s[i + 1] == '+' && s[i + 2] == '$'
      && s[i + 3..i + 3 + |whole|] == whole
      && (forall k :: i + 3 <= k < i + 3 + |whole| ==> IsDigit(s[k]))
      && (forall k :: 0 <= k < |tail| ==> s[i + 3 + |whole| + k] == tail[k])
  {
  }

  /** The parse of a marker whose whole amount ends at `j` and whose tail encodes `frac` cents. */
  lemma MarkerAtParts(s: string, i: nat, j: nat, frac: nat)
    requires i + 3 < j <= |s| && frac < 100
    requires s[i] == '(' && s[i + 1] == '+' && s[i + 2] == '$'
    requires DigitRun(s, i + 3) == j - (i + 3)
    requires frac == 0 ==> !(j + 4 <= |s| && s[j] == '.') && j < |s| && s[j] == ')'
    requires frac != 0 ==> j + 4 <= |s| && s[j] == '.' && IsDigit(s[j + 1]) && IsDigit(s[j + 2]) && s[j + 3] == ')'
                           && AllDigits(s[j + 1..j + 3]) && DigitsValue(s[j + 1..j + 3]) == frac
    ensures AllDigits(s[i + 3..j])
    ensures MarkerAt(s, i) == Some(DigitsValue(s[i + 3..j]) * 100 + frac)
  {
  }

  lemma TailValue(s: string, j: nat, frac: nat)
    requires frac < 100
    requires j + |MarkerTail(frac)| <= |s|
    requires forall k :: 0 <= k < |MarkerTail(frac)| ==> s[j + k] == MarkerTail(frac)[k]
    ensures frac == 0 ==> !(j + 4 <= |s| && s[j] == '.') && j < |s| && s[j] == ')'
    ensures frac != 0 ==> j + 4 <= |s| && s[j] == '.' && IsDigit(s[j + 1]) && IsDigit(s[j + 2]) && s[j + 3] == ')'
                          && AllDigits(s[j + 1..j + 3]) && DigitsValue(s[j + 1..j + 3]) == frac
  {
    var tail := MarkerTail(frac);
    assert s[j] == tail[0];
    if frac != 0 {
      assert s[j + 1] == tail[1] && s[j + 2] == tail[2] && s[j + 3] == tail[3];
      var f := s[j + 1..j + 3];
      assert f[..1] == [DigitChar(frac / 10)];
      assert f[..1][..0] == [];
      assert DigitsValue(f[..1]) == frac / 10;
      assert DigitsValue(f) == frac / 10 * 10 + frac % 10;
    }
  }

  /** A run of digits that ends before a non-digit is found whole by `DigitRun`. */
  lemma {:induction false} DigitRunOfDigits(s: string, i: nat, j: nat)
    requires i <= j < |s|
    requires forall k :: i <= k < j ==> IsDigit(s[k])
    requires !IsDigit(s[j])
    ensures DigitRun(s, i) == j - i
    decreases j - i
  {
    if i < j {
      DigitRunOfDigits(s, i + 1, j);
    }
  }

  /**
   * The scan from `i` stops at the first marker: when none starts in `[i, j)`, a marker
   * at `j` gives the amount, and reaching the end of the text gives 0.
   */
  lemma {:induction false} DeltaFromFirstMarker(s: string, i: nat, j: nat)
    requires i <= j <= |s|
    requires forall m :: i <= m < j ==> MarkerAt(s, m).None?
    ensures MarkerAt(s, j).Some? ==> DeltaFrom(s, i) == MarkerAt(s, j).value
    ensures j == |s| ==> DeltaFrom(s, i) == 0
    decreases j - i
  {
    if i < j {
      DeltaFromFirstMarker(s, i + 1, j);
    }
  }

  /**
   * An option text contributes the amount of its first marker, and 0 when it has none:
   * "A+B (+$2)" is priced by its marker, and "Size (+3)" contributes nothing.
   */
  lemma OptionDeltaMeaning(text: string, j: nat)
    requires j <= |text|
    requires forall m :: 0 <= m < j ==> MarkerAt(text, m).None?
    ensures MarkerAt(text, j).Some? ==> OptionDelta(text) == MarkerAt(text, j).value
    ensures j == |text| ==> OptionDelta(text) == 0
  {
    DeltaFromFirstMarker(text, 0, j);
  }

  /** A text without a '+' has no marker, so it contributes nothing (e.g. a negative "(-$3)" marker is ignored). */
  lemma NoPlusNoDelta(text: string)
    requires '+' !in text
    ensures OptionDelta(text) == 0
  {
    forall j | 0 <= j < |text|
      ensures MarkerAt(text, j).None?
    {
      if j + 1 < |text| {
        assert text[j + 1] in text;
      }
    }
    OptionDeltaMeaning(text, |text|);
  }

  /** Example: a '+' in the name does not hide the marker that follows it. */
  lemma PlusInNameExample()
    ensures OptionDelta("A+B (+$2)") == 200
  {
    var text := "A+B (+$2)";
    assert MarkerAt(text, 4) == Some(200) by {
      DigitRunOfDigits(text, 7, 8);
      assert text[7..8] == "2";
    }
    OptionDeltaMeaning(text, 4);
  }

  lemma NegativeMarkerIgnored()
    ensures OptionDelta("No Protein (-$3)") == 0
  {
    NoPlusNoDelta("No Protein (-$3)");
  }

  lemma SampleMarkers()
    ensures OptionDelta("Large (+$6)") == 600
    ensures OptionDelta("Chicken (+$2.50)") == 250
  {
    MarkerRoundTrip("Large ", 600);
    assert "Large " + Marker(600) == "Large (+$6)";
    MarkerRoundTrip("Chicken ", 250);
    assert "Chicken " + Marker(250) == "Chicken (+$2.50)";
  }
}
