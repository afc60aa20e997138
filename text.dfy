/** The two JavaScript built-ins the request handler leans on:
    `String.prototype.toLowerCase` (on ASCII letters) and `parseInt` with the
    default radix (an optional sign followed by a run of decimal digits). */
module Text {

  datatype Option<T> = None | Some(value: T)

  predicate IsUpper(c: char) { 'A' <= c <= 'Z' }

  predicate IsDigit(c: char) { '0' <= c <= '9' }

  /** No upper-case ASCII letter occurs in `s`. */
  predicate IsLower(s: string) {
    forall i :: 0 <= i < |s| ==> !IsUpper(s[i])
  }

  function LowerChar(c: char): char {
    if IsUpper(c) then (c as int + 32) as char else c
  }

  /** `s.toLowerCase()`: every upper-case letter is replaced by its lower-case
      partner, every other character is kept. */
  function Lower(s: string): (r: string)
    ensures |r| == |s| && IsLower(r)
    ensures forall i :: 0 <= i < |s| && !IsUpper(s[i]) ==> r[i] == s[i]
    ensures forall i :: 0 <= i < |s| && IsUpper(s[i]) ==> r[i] as int == s[i] as int + 32
  {
    seq(|s|, i requires 0 <= i < |s| => LowerChar(s[i]))
  }

  /** Lowering each string of a list, as the loop over the `platforms` array does. */
  function LowerAll(xs: seq<string>): (r: seq<string>)
    ensures |r| == |xs|
    ensures forall i :: 0 <= i < |xs| ==> r[i] == Lower(xs[i])
  {
    if xs == [] then [] else [Lower(xs[0])] + LowerAll(xs[1..])
  }

  lemma LowerFixesLowercase(s: string)
    requires IsLower(s)
    ensures Lower(s) == s
  {
  }

  lemma LowerIdempotent(s: string)
    ensures Lower(Lower(s)) == Lower(s)
  {
    LowerFixesLowercase(Lower(s));
  }

  // ---------------------------------------------------------------- parseInt

  function DigitValue(c: char): nat
    requires IsDigit(c)
  {
    c as int - '0' as int
  }

  function DigitChar(d: nat): (c: char)
    requires d < 10
    ensures IsDigit(c) && DigitValue(c) == d
  {
    ('0' as int + d) as char
  }

  predicate AllDigits(s: string) {
    forall i :: 0 <= i < |s| ==> IsDigit(s[i])
  }

  predicate StartsWithDigit(s: string) {
    |s| > 0 && IsDigit(s[0])
  }

  /** Reads the leading run of decimal digits of `s` onto `acc`, most
      significant first, and stops at the first non-digit. */
  function Scan(s: string, acc: nat): nat {
    if StartsWithDigit(s) then Scan(s[1..], acc * 10 + DigitValue(s[0])) else acc
  }

  /** The digits that follow an optional leading sign. */
  function Unsigned(s: string): string {
    if |s| > 0 && (s[0] == '-' || s[0] == '+') then s[1..] else s
  }

  /** `parseInt(s)`: `None` stands for `NaN`. Characters after the digit run
      are ignored, so "12abc" yields 12. */
  function ParseInt(s: string): (r: Option<int>)
    ensures r.None? <==> !StartsWithDigit(Unsigned(s))
    ensures r.Some? && (|s| == 0 || s[0] != '-') ==> r.value >= 0
  {
    var t := Unsigned(s);
    var v: int := Scan(t, 0);
    if !StartsWithDigit(t) then None
    else if s[0] == '-' then Some(-v)
    else Some(v)
  }

  /** The decimal form of a natural number, without leading zeros. */
  function ShowNat(n: nat): string {
    if n < 10 then [DigitChar(n)] else ShowNat(n / 10) + [DigitChar(n % 10)]
  }

  /** The decimal form is a non-empty run of digits. */
  lemma {:induction false} ShowNatDigits(n: nat)
    ensures |ShowNat(n)| > 0 && AllDigits(ShowNat(n))
  {
    if n >= 10 {
      ShowNatDigits(n / 10);
      var s := ShowNat(n);
      assert s == ShowNat(n / 10) + [DigitChar(n % 10)];
      assert forall i :: 0 <= i < |s| - 1 ==> s[i] == ShowNat(n / 10)[i];
    }
  }

  /** The decimal form of an integer, with a leading '-' when negative. */
  function Show(n: int): string {
    if n < 0 then "-" + ShowNat(-n) else ShowNat(n)
  }

  /** Scanning a run of digits and then what follows is scanning the
      follow-up from the value of the run. */
  lemma {:induction false} ScanAppend(ds: string, rest: string, acc: nat)
    requires AllDigits(ds)
    ensures Scan(ds + rest, acc) == Scan(rest, Scan(ds, acc))
  {
    if ds != [] {
      assert (ds + rest)[0] == ds[0];
      assert (ds + rest)[1..] == ds[1..] + rest;
      ScanAppend(ds[1..], rest, acc * 10 + DigitValue(ds[0]));
    } else {
      assert ds + rest == rest;
    }
  }

  /** The decimal form of `n` scans back to `n`. */
  lemma {:induction false} ScanShowNat(n: nat)
    ensures Scan(ShowNat(n), 0) == n
  {
    if n < 10 {
      assert Scan(ShowNat(n)[1..], DigitValue(ShowNat(n)[0])) == n;
    } else {
      var d := [DigitChar(n % 10)];
      ScanShowNat(n / 10);
      ShowNatDigits(n / 10);
      ScanAppend(ShowNat(n / 10), d, 0);
      assert Scan(d, n / 10) == Scan(d[1..], (n / 10) * 10 + n % 10);
    }
  }

  /** A digit run, signed or not, parses to its scanned value. */
  lemma ParseIntDigits(t: string)
    requires StartsWithDigit(t)
    ensures ParseInt(t) == Some(Scan(t, 0) as int)
    ensures ParseInt("-" + t) == Some(0 - Scan(t, 0) as int)
  {
    assert Unsigned(t) == t;
    assert ("-" + t)[0] == '-' && ("-" + t)[1..] == t;
  }

  /** The decimal form of `m` followed by non-digits starts with a digit
      and scans to `m`. */
  lemma ScanShowNatThen(m: nat, rest: string)
    requires !StartsWithDigit(rest)
    ensures StartsWithDigit(ShowNat(m) + rest) && Scan(ShowNat(m) + rest, 0) == m
  {
    ShowNatDigits(m);
    ScanAppend(ShowNat(m), rest, 0);
    ScanShowNat(m);
    assert (ShowNat(m) + rest)[0] == ShowNat(m)[0];
  }

  /** Printing a number and parsing it back gives the number, whatever
      non-digit text follows it. */
  lemma ParseIntShow(n: int, rest: string)
    requires !StartsWithDigit(rest)
    ensures ParseInt(Show(n) + rest) == Some(n)
  {
    var m: nat := if n < 0 then -n else n;
    var t := ShowNat(m) + rest;
    ScanShowNatThen(m, rest);
    ParseIntDigits(t);
    if n < 0 {
      assert Show(n) + rest == "-" + t;
    } else {
      assert Show(n) + rest == t;
    }
  }
}
