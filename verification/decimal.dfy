/**
 * Decimal fields of a barcode.
 *
 * The decoder reads every field with `int.Parse` on a run of ASCII digits
 * (`barcode.Substring(0, 3)`, `barcode[7].ToString()`, ...).  On a string of
 * digits only, that is the ordinary base-10 value of the digits, most
 * significant first, which is what `Value` computes.  `Digits` is its inverse
 * on fixed-width fields.
 */
module Decimal {

  /** One decimal digit: what `int.Parse` returns for a single character '0'..'9'. */
  type Digit = d: int | 0 <= d <= 9

  function Pow10(n: nat): (r: nat)
    ensures r >= 1
  {
    if n == 0 then 1 else 10 * Pow10(n - 1)
  }

  /** The value of a run of digits, most significant first; a field of k digits stays below 10^k. */
  function Value(ds: seq<Digit>): (r: nat)
    ensures r < Pow10(|ds|)
  {
    if ds == [] then 0 else 10 * Value(ds[..|ds| - 1]) + ds[|ds| - 1]
  }

  /** The k-digit numeral of n, leading zeros included. */
  function Digits(n: nat, k: nat): (ds: seq<Digit>)
    ensures |ds| == k
  {
    if k == 0 then [] else Digits(n / 10, k - 1) + [n % 10]
  }

  /** Appending a digit to a number and dividing by ten again gives the number and the digit back. */
  lemma DivModTen(q: nat, d: Digit)
    ensures (10 * q + d) / 10 == q && (10 * q + d) % 10 == d
  {
  }

  /** Appending a digit shifts the value one place left and adds the digit. */
  lemma ValueAppend(ds: seq<Digit>, d: Digit)
    ensures Value(ds + [d]) == 10 * Value(ds) + d
  {
    assert (ds + [d])[..|ds|] == ds;
  }

  /** n splits into its last digit and the rest; below 10 * p, the rest stays below p. */
  lemma SplitLastDigit(n: nat, p: nat)
    requires n < 10 * p
    ensures n == 10 * (n / 10) + n % 10 && n / 10 < p
  {
  }

  /** Reading back a k-digit numeral gives the number it was written from. */
  lemma {:induction false} ValueOfDigits(n: nat, k: nat)
    requires n < Pow10(k)
    ensures Value(Digits(n, k)) == n
  {
    if k > 0 {
      assert Pow10(k) == 10 * Pow10(k - 1);
      SplitLastDigit(n, Pow10(k - 1));
      ValueOfDigits(n / 10, k - 1);
      ValueAppend(Digits(n / 10, k - 1), n % 10);
    }
  }

  /** A fixed-width field is determined by its value: writing the value back gives the same digits. */
  lemma {:induction false} DigitsOfValue(ds: seq<Digit>)
    ensures Digits(Value(ds), |ds|) == ds
  {
    if ds != [] {
      var k := |ds|;
      var init := ds[..k - 1];
      DigitsOfValue(init);
      DivModTen(Value(init), ds[k - 1]);
      assert ds == init + [ds[k - 1]];
    }
  }

  /** A two-digit field, such as `Substring(3, 2)`. */
  lemma ValueOfTwo(ds: seq<Digit>)
    requires |ds| == 2
    ensures Value(ds) == 10 * (ds[0] as int) + ds[1]
  {
  }

  /** A three-digit field, such as `Substring(0, 3)`. */
  lemma ValueOfThree(ds: seq<Digit>)
    requires |ds| == 3
    ensures Value(ds) == 100 * (ds[0] as int) + 10 * (ds[1] as int) + ds[2]
  {
    ValueOfTwo(ds[..2]);
  }
}
