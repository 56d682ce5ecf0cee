/** The normalisation helpers both address actions apply before writing:
    `onlyDigits` (drop every non-digit) and `maskCEP` (re-insert the CEP dash).
    The create and update actions each carry an identical copy; they are defined
    once here. */
module Normalize {
  import opened Text
  import opened Patterns

  /** `s.replace(/\D/g, "")`. */
  function OnlyDigits(s: string): (r: string)
    ensures AllDigits(r)
    ensures |r| <= |s|
  {
    if |s| == 0 then []
    else (if IsDigit(s[0]) then [s[0]] else []) + OnlyDigits(s[1..])
  }

  /** Stripping distributes over concatenation, so the digits keep their order. */
  lemma {:induction false} OnlyDigitsAppend(a: string, b: string)
    ensures OnlyDigits(a + b) == OnlyDigits(a) + OnlyDigits(b)
    decreases |a|
  {
    if |a| > 0 {
      assert (a + b)[1..] == a[1..] + b;
      OnlyDigitsAppend(a[1..], b);
    } else {
      assert a + b == b;
    }
  }

  /** A string is left unchanged exactly when it already is all digits. */
  lemma {:induction false} OnlyDigitsFixesExactlyDigits(s: string)
    ensures OnlyDigits(s) == s <==> AllDigits(s)
    decreases |s|
  {
    if |s| > 0 {
      OnlyDigitsFixesExactlyDigits(s[1..]);
      if !IsDigit(s[0]) {
        assert |OnlyDigits(s)| <= |s[1..]| < |s|;
      } else {
        assert s == [s[0]] + s[1..];
      }
    }
  }

  lemma OnlyDigitsIdempotent(s: string)
    ensures OnlyDigits(OnlyDigits(s)) == OnlyDigits(s)
  {
    OnlyDigitsFixesExactlyDigits(OnlyDigits(s));
  }

  /** Every digit occurs in the result as often as in the input, and nothing else
      does. */
  lemma {:induction false} OnlyDigitsKeepsDigits(s: string)
    ensures forall c :: multiset(OnlyDigits(s))[c] == if IsDigit(c) then multiset(s)[c] else 0
    decreases |s|
  {
    if |s| > 0 {
      OnlyDigitsKeepsDigits(s[1..]);
      assert s == [s[0]] + s[1..];
      assert multiset(s) == multiset([s[0]]) + multiset(s[1..]);
    }
  }

  /** `maskCEP`: eight characters become `first five + "-" + last three`; any
      other length is returned unchanged. */
  function MaskCep(digits: string): (r: string)
    ensures |digits| == 8 ==> |r| == 9 && r[..5] == digits[..5] && r[5] == '-' && r[6..] == digits[5..]
    ensures |digits| != 8 ==> r == digits
  {
    if |digits| != 8 then digits else digits[..5] + "-" + digits[5..]
  }

  /** Masking loses nothing: stripping a masked digit string gives it back. */
  lemma MaskCepUnmask(d: string)
    requires AllDigits(d)
    ensures OnlyDigits(MaskCep(d)) == d
  {
    OnlyDigitsFixesExactlyDigits(d);
    if |d| == 8 {
      OnlyDigitsAppend(d[..5] + "-", d[5..]);
      OnlyDigitsAppend(d[..5], "-");
      OnlyDigitsFixesExactlyDigits(d[..5]);
      OnlyDigitsFixesExactlyDigits(d[5..]);
      assert d == d[..5] + d[5..];
    }
  }

  /** The digits of a well-formed CEP are the CEP without its dash. */
  lemma ZipDigits(z: string)
    requires ZipOk(z)
    ensures OnlyDigits(z) == z[..5] + z[6..]
  {
    assert z == z[..5] + "-" + z[6..];
    OnlyDigitsAppend(z[..5] + "-", z[6..]);
    OnlyDigitsAppend(z[..5], "-");
    OnlyDigitsFixesExactlyDigits(z[..5]);
    OnlyDigitsFixesExactlyDigits(z[6..]);
  }

  /** Round trip: a CEP already in `DDDDD-DDD` form is stored exactly as given. */
  lemma MaskCepRoundTrip(z: string)
    requires ZipOk(z)
    ensures MaskCep(OnlyDigits(z)) == z
  {
    ZipDigits(z);
    var d := OnlyDigits(z);
    assert d[..5] == z[..5] && d[5..] == z[6..];
    assert MaskCep(d) == z[..5] + "-" + z[6..];
    assert z == z[..5] + [z[5]] + z[6..];
  }

  /** The stored CEP is well formed exactly when the input had eight digits;
      with any other count the silent pass-through keeps an unmasked string. */
  lemma StoredZipWellFormed(s: string)
    ensures ZipOk(MaskCep(OnlyDigits(s))) <==> |OnlyDigits(s)| == 8
  {
    var d := OnlyDigits(s);
    var r := MaskCep(d);
    if |d| == 8 {
      assert AllDigits(r[..5]) && AllDigits(r[6..]);
    } else {
      assert r == d;
      assert |d| == 9 ==> IsDigit(d[5]);
    }
  }

  /** Example: a CEP typed with its dash is stored unchanged. */
  lemma MaskedCepExample()
    ensures MaskCep(OnlyDigits("01311-000")) == "01311-000"
  {
    var z := "01311-000";
    assert z[..5] == "01311" && z[6..] == "000";
    MaskCepRoundTrip(z);
  }

  /** Example: a CEP typed as eight bare digits is stored masked. */
  lemma BareCepExample()
    ensures MaskCep(OnlyDigits("01311000")) == "01311-000"
  {
    var d := "01311000";
    OnlyDigitsFixesExactlyDigits(d);
    assert d[..5] == "01311" && d[5..] == "000";
  }
}
