/**
 * `normalizeArPhone`: a heuristic that rewrites a free-text Argentine phone
 * number as `+549` followed by area code and local number. It is not a
 * validating parse. It keeps the digits, drops a country code `54` and one
 * `9` after it, drops the trunk prefix (leading `0`s), removes one mobile
 * marker `15` after the area code when the number is long enough, and
 * prepends `+549`.
 */
module Phone {
  import opened Text

  /** `replace(/\D+/g, '')`: the digits of `s`, in order. */
  function Digits(s: string): (r: string)
    ensures |r| <= |s|
  {
    if s == "" then ""
    else if IsDigit(s[0]) then [s[0]] + Digits(s[1..])
    else Digits(s[1..])
  }

  /** Drops a leading country code `54` and then one mobile `9` right after it. */
  function DropCountryCode(n: string): (r: string)
    ensures |r| <= |n|
  {
    if "54" <= n then
      var m := n[2..];
      if "9" <= m then m[1..] else m
    else n
  }

  /** `replace(/^0+/, '')`: drops the trunk prefix, every leading `0`. */
  function DropTrunkZeros(n: string): (r: string)
    ensures |r| <= |n|
    decreases |n|
  {
    if n != "" && n[0] == '0' then DropTrunkZeros(n[1..]) else n
  }

  /** The mobile marker `15` stands at offset `k` of `n`. */
  predicate Has15At(n: string, k: nat) {
    k + 2 <= |n| && n[k..k + 2] == "15"
  }

  /** `n` without the two characters at offsets `k` and `k + 1`. */
  function Cut(n: string, k: nat): (r: string)
    requires k + 2 <= |n|
    ensures |r| == |n| - 2
  {
    n[..k] + n[k + 2..]
  }

  /**
   * Removes one `15` written after the area code, for numbers of at least
   * 12 digits: after the 2-digit area code `11`, else after 3 digits (13 or
   * more digits), else after 4 digits (14 or more digits).
   */
  function DropMobile15(n: string): (r: string)
  {
    if |n| >= 12 then
      if "11" <= n && n[2..4] == "15" then Cut(n, 2)
      else if |n| >= 13 && n[3..5] == "15" then Cut(n, 3)
      else if |n| >= 14 && n[4..6] == "15" then Cut(n, 4)
      else n
    else n
  }

  /** The digits left once country code and trunk prefix are gone. */
  function NationalDigits(input: string): string {
    DropTrunkZeros(DropCountryCode(Digits(Trim(input))))
  }

  /**
   * `normalizeArPhone(input)`: empty exactly when the input holds no digit,
   * otherwise `+549` followed by digits only.
   */
  function NormalizeArPhone(input: string): (r: string)
    ensures r == "" <==> !HasDigit(input)
    ensures r != "" ==> "+549" <= r && AllDigits(r[4..])
  {
    HasDigitTrim(input);
    DigitsSound(Trim(input));
    NationalDigitsAreDigits(input);
    DropMobile15KeepsDigits(NationalDigits(input));
    var raw := Trim(input);
    if raw == "" then ""
    else
      var n := Digits(raw);
      if n == "" then "" else "+549" + DropMobile15(NationalDigits(input))
  }

  // ---------------------------------------------------------------------
  // What each stage does

  /** `Digits(s)` holds only digits, and is empty exactly when `s` has none. */
  lemma {:induction false} DigitsSound(s: string)
    ensures AllDigits(Digits(s))
    ensures Digits(s) == "" <==> !HasDigit(s)
    decreases |s|
  {
    if s != "" {
      DigitsSound(s[1..]);
      assert forall i :: 1 <= i < |s| ==> s[i] == s[1..][i - 1];
      if HasDigit(s[1..]) {
        var i :| 0 <= i < |s[1..]| && IsDigit(s[1..][i]);
        assert IsDigit(s[i + 1]);
      }
    }
  }

  lemma {:induction false} DigitsAppend(a: string, b: string)
    ensures Digits(a + b) == Digits(a) + Digits(b)
    decreases |a|
  {
    if a == "" {
      assert a + b == b;
    } else {
      assert (a + b)[1..] == a[1..] + b;
      DigitsAppend(a[1..], b);
    }
  }

  lemma SuffixKeepsDigits(n: string, k: nat)
    requires AllDigits(n) && k <= |n|
    ensures AllDigits(n[k..])
  {
    assert forall i :: 0 <= i < |n| - k ==> n[k..][i] == n[k + i];
  }

  lemma AllDigitsAppend(a: string, b: string)
    requires AllDigits(a) && AllDigits(b)
    ensures AllDigits(a + b)
  {
    assert forall i :: |a| <= i < |a + b| ==> (a + b)[i] == b[i - |a|];
  }

  /** A string of digits is its own digit string. */
  lemma {:induction false} DigitsOfDigits(s: string)
    requires AllDigits(s)
    ensures Digits(s) == s
    decreases |s|
  {
    if s != "" {
      SuffixKeepsDigits(s, 1);
      DigitsOfDigits(s[1..]);
    }
  }

  lemma {:induction false} DigitsOfSpaces(s: string)
    requires AllSpace(s)
    ensures Digits(s) == ""
    decreases |s|
  {
    if s != "" {
      assert forall i :: 0 <= i < |s| - 1 ==> s[1..][i] == s[i + 1];
      DigitsOfSpaces(s[1..]);
    }
  }

  /** Trimming never changes which digits a string holds. */
  lemma DigitsOfTrim(s: string)
    ensures Digits(Trim(s)) == Digits(s)
  {
    TrimSpec(s);
    var pre, post :| AllSpace(pre) && AllSpace(post) && s == pre + Trim(s) + post;
    DigitsOfSpaces(pre);
    DigitsOfSpaces(post);
    DigitsAppend(pre + Trim(s), post);
    DigitsAppend(pre, Trim(s));
  }

  /**
   * `DropCountryCode` removes `"549"` when the number starts so, else `"54"`
   * when it starts so, and otherwise nothing.
   */
  lemma DropCountryCodeSpec(n: string)
    ensures var r := DropCountryCode(n);
            n == (if "549" <= n then "549" else if "54" <= n then "54" else "") + r
  {
    if "54" <= n {
      assert n == n[..2] + n[2..];
      if "9" <= n[2..] {
        assert n[..3] == "549";
        assert n == n[..3] + n[3..];
      }
    }
  }

  /** `DropTrunkZeros` removes a run of `0`s, all of them: the result does not start with `0`. */
  lemma {:induction false} DropTrunkZerosSpec(n: string)
    ensures var r := DropTrunkZeros(n);
            n == n[..|n| - |r|] + r && (forall i :: 0 <= i < |n| - |r| ==> n[i] == '0')
            && (r == "" || r[0] != '0')
    decreases |n|
  {
    if n != "" && n[0] == '0' {
      DropTrunkZerosSpec(n[1..]);
      var r := DropTrunkZeros(n);
      assert forall i :: 1 <= i < |n| - |r| ==> n[i] == n[1..][i - 1];
      assert n[1..] == n[1..][..|n| - 1 - |r|] + r;
    }
  }

  /**
   * `DropMobile15` changes only numbers of 12 or more digits and then removes
   * exactly one `15`, at offset 2 (only after area code `11`), else 3 (13 or
   * more digits), else 4 (14 or more digits), tried in that order; putting
   * the `15` back at the same offset restores the number.
   */
  lemma DropMobile15Spec(n: string)
    ensures var r := DropMobile15(n);
            && (|n| < 12 ==> r == n)
            && (|n| >= 12 && "11" <= n && Has15At(n, 2) ==> r == Cut(n, 2))
            && (|n| >= 13 && !("11" <= n && Has15At(n, 2)) && Has15At(n, 3) ==> r == Cut(n, 3))
            && (|n| >= 14 && !("11" <= n && Has15At(n, 2)) && !Has15At(n, 3) && Has15At(n, 4)
                ==> r == Cut(n, 4))
            && (((|n| < 12 || !("11" <= n && Has15At(n, 2))) && (|n| < 13 || !Has15At(n, 3))
                 && (|n| < 14 || !Has15At(n, 4))) ==> r == n)
            && (r == n || exists k :: 2 <= k <= 4 && Has15At(n, k) && n == r[..k] + "15" + r[k..])
  {
    var r := DropMobile15(n);
    if r != n {
      var k := if |n| >= 12 && "11" <= n && n[2..4] == "15" then 2
               else if |n| >= 13 && n[3..5] == "15" then 3 else 4;
      assert r == Cut(n, k);
      assert r[..k] == n[..k] && r[k..] == n[k + 2..];
      assert n == n[..k] + n[k..k + 2] + n[k + 2..];
    }
  }

  lemma DropMobile15KeepsDigits(n: string)
    requires AllDigits(n)
    ensures AllDigits(DropMobile15(n))
  {
    var r := DropMobile15(n);
    if r != n {
      var k := if |n| >= 12 && "11" <= n && n[2..4] == "15" then 2
               else if |n| >= 13 && n[3..5] == "15" then 3 else 4;
      assert forall i :: 0 <= i < |r| ==> r[i] == (if i < k then n[i] else n[i + 2]);
    }
  }

  lemma NationalDigitsAreDigits(input: string)
    ensures AllDigits(NationalDigits(input))
  {
    var d := Digits(Trim(input));
    DigitsSound(Trim(input));
    var m := DropCountryCode(d);
    DropCountryCodeSpec(d);
    SuffixKeepsDigits(d, |d| - |m|);
    assert m == d[|d| - |m|..];
    var n := DropTrunkZeros(m);
    DropTrunkZerosSpec(m);
    SuffixKeepsDigits(m, |m| - |n|);
    assert n == m[|m| - |n|..];
  }

  // ---------------------------------------------------------------------
  // The normaliser as a whole

  /** `raw` is tested after trimming: the result is empty exactly when the trimmed input has no digit. */
  lemma NormalizeArPhoneShape(input: string)
    ensures NormalizeArPhone(input) == "" <==> !HasDigit(Trim(input))
  {
    HasDigitTrim(input);
  }

  /**
   * Once there is a digit, the result is `+549` and the national digits,
   * less one mobile `15` when the heuristic finds one.
   */
  lemma NormalizeArPhoneStages(input: string)
    requires HasDigit(input)
    ensures var n := NationalDigits(input);
            var r := NormalizeArPhone(input);
            r == "+549" + n || exists k :: 2 <= k <= 4 && Has15At(n, k) && r == "+549" + Cut(n, k)
  {
    HasDigitTrim(input);
    DigitsSound(Trim(input));
    var n := NationalDigits(input);
    DropMobile15Spec(n);
    var r := DropMobile15(n);
    assert NormalizeArPhone(input) == "+549" + r;
    if r != n {
      var k := if |n| >= 12 && "11" <= n && n[2..4] == "15" then 2
               else if |n| >= 13 && n[3..5] == "15" then 3 else 4;
      assert Has15At(n, k) && r == Cut(n, k);
    }
  }

  /**
   * Only the digits of the input matter: spaces, dashes, parentheses and a
   * `+` never change the result.
   */
  lemma NormalizeOnlyDigitsMatter(x: string, y: string)
    requires Digits(x) == Digits(y)
    ensures NormalizeArPhone(x) == NormalizeArPhone(y)
  {
    DigitsOfTrim(x);
    DigitsOfTrim(y);
  }

  lemma TrimUntouched(s: string)
    requires s != "" && !IsSpace(s[0]) && !IsSpace(s[|s| - 1])
    ensures Trim(s) == s
  {
  }

  /** On a string of digits only the three digit stages act. */
  lemma NormalizeDigitString(s: string)
    requires s != "" && AllDigits(s)
    ensures NormalizeArPhone(s) == "+549" + DropMobile15(DropTrunkZeros(DropCountryCode(s)))
  {
    TrimUntouched(s);
    DigitsOfDigits(s);
  }

  // ---------------------------------------------------------------------
  // Worked examples

  /** After area code `11`, the marker of a 12-digit or longer number goes. */
  lemma DropMobile15After11(rest: string)
    requires |rest| >= 8
    ensures DropMobile15("11" + "15" + rest) == "11" + rest
  {
    var n := "11" + "15" + rest;
    assert n[..2] == "11" && n[2..4] == "15" && n[4..] == rest;
  }

  /** A number starting with `1` has neither country code nor trunk prefix. */
  lemma LeadingOneKept(n: string)
    requires n != "" && n[0] == '1'
    ensures DropCountryCode(n) == n && DropTrunkZeros(n) == n
  {
    assert !("54" <= n) by {
      assert n[0] != "54"[0];
    }
  }

  /** `54`, then the mobile `9`, then `n`: both go. */
  lemma CountryCodeAndNineDropped(n: string)
    ensures DropCountryCode("549" + n) == n
  {
    var d := "549" + n;
    assert d[..2] == "54" && d[2..] == "9" + n;
  }

  /** `0 11 15` and an 8-digit local number: the digit stages. */
  lemma BuenosAiresStages(local: string)
    requires |local| == 8
    ensures DropMobile15(DropTrunkZeros(DropCountryCode("01115" + local))) == "11" + local
  {
    var n := "1115" + local;
    var s := "01115" + local;
    assert s == "0" + n && s[1..] == n;
    assert !("54" <= s) by {
      assert s[0] != "54"[0];
    }
    LeadingOneKept(n);
    assert n == "11" + "15" + local;
    DropMobile15After11(local);
  }

  /**
   * A Buenos Aires mobile written with trunk prefix and marker,
   * `0 11 15` and an 8-digit local number, becomes `+549 11` and the local
   * number.
   */
  lemma NormalizeBuenosAiresMobile(local: string)
    requires |local| == 8 && AllDigits(local)
    ensures NormalizeArPhone("01115" + local) == "+54911" + local
  {
    var s := "01115" + local;
    AllDigitsAppend("01115", local);
    NormalizeDigitString(s);
    BuenosAiresStages(local);
    calc {
      NormalizeArPhone(s);
      "+549" + DropMobile15(DropTrunkZeros(DropCountryCode(s)));
      "+549" + ("11" + local);
      "+54911" + local;
    }
  }

  lemma WrittenPrefixDigits()
    ensures Digits("011 15-") == "01115"
  {
    assert "011 15-" == "011" + (" " + ("15" + "-"));
    DigitsAppend("011", " " + ("15" + "-"));
    DigitsAppend(" ", "15" + "-");
    DigitsAppend("15", "-");
    DigitsOfDigits("011");
    DigitsOfDigits("15");
    assert "011" + ("15" + "") == "01115";
  }

  /**
   * The same number as typed by hand, `011 15-` and the local number:
   * the separators do not matter.
   */
  lemma NormalizeWrittenMobile(local: string)
    requires |local| == 8 && AllDigits(local)
    ensures NormalizeArPhone("011 15-" + local) == "+54911" + local
  {
    WrittenPrefixDigits();
    DigitsAppend("011 15-", local);
    DigitsOfDigits(local);
    AllDigitsAppend("01115", local);
    DigitsOfDigits("01115" + local);
    NormalizeOnlyDigitsMatter("011 15-" + local, "01115" + local);
    NormalizeBuenosAiresMobile(local);
  }

  /** Area code `11` followed by two markers: the digit stages remove the first. */
  lemma DoubleMarkerFirstRun(local: string)
    requires |local| == 8
    ensures DropMobile15(DropTrunkZeros(DropCountryCode("111515" + local))) == "1115" + local
  {
    var s := "111515" + local;
    assert s == "11" + "15" + ("15" + local);
    LeadingOneKept(s);
    DropMobile15After11("15" + local);
    assert "11" + ("15" + local) == "1115" + local;
  }

  /** The first run's output read back: country code, `9` and one marker go. */
  lemma DoubleMarkerSecondRun(local: string)
    requires |local| == 8
    ensures DropMobile15(DropTrunkZeros(DropCountryCode("5491115" + local))) == "11" + local
  {
    var n := "1115" + local;
    assert "5491115" + local == "549" + n;
    CountryCodeAndNineDropped(n);
    LeadingOneKept(n);
    assert n == "11" + "15" + local;
    DropMobile15After11(local);
  }

  lemma DigitsOfFormatted(local: string)
    requires AllDigits(local)
    ensures Digits("+5491115" + local) == "5491115" + local
  {
    var d := "5491115" + local;
    assert "+5491115" + local == "+" + d;
    AllDigitsAppend("5491115", local);
    DigitsAppend("+", d);
    DigitsOfDigits(d);
  }

  /** First run over `11 15 15` and a local number: one marker goes. */
  lemma DoubleMarkerNormalized(local: string)
    requires |local| == 8 && AllDigits(local)
    ensures NormalizeArPhone("111515" + local) == "+5491115" + local
  {
    AllDigitsAppend("111515", local);
    NormalizeDigitString("111515" + local);
    DoubleMarkerFirstRun(local);
    assert "+549" + ("1115" + local) == "+5491115" + local;
  }

  /** Read back, the `+` of the first run's output does not matter. */
  lemma FormattedAsDigits(local: string)
    requires AllDigits(local)
    ensures NormalizeArPhone("+5491115" + local) == NormalizeArPhone("5491115" + local)
  {
    DigitsOfFormatted(local);
    AllDigitsAppend("5491115", local);
    DigitsOfDigits("5491115" + local);
    NormalizeOnlyDigitsMatter("+5491115" + local, "5491115" + local);
  }

  lemma StagesOfFirstOutput(local: string)
    requires |local| == 8 && AllDigits(local)
    ensures NormalizeArPhone("5491115" + local) == "+54911" + local
  {
    AllDigitsAppend("5491115", local);
    NormalizeDigitString("5491115" + local);
    DoubleMarkerSecondRun(local);
    assert "+549" + ("11" + local) == "+54911" + local;
  }

  /** Second run over the first run's output: the other marker goes too. */
  lemma DoubleMarkerRenormalized(local: string)
    requires |local| == 8 && AllDigits(local)
    ensures NormalizeArPhone("+5491115" + local) == "+54911" + local
  {
    FormattedAsDigits(local);
    StagesOfFirstOutput(local);
  }

  /**
   * The normaliser is not idempotent: with two `15`s after area code `11`,
   * each run removes one, so a second run changes the first run's output.
   */
  lemma NormalizeNotIdempotent(local: string)
    requires |local| == 8 && AllDigits(local)
    ensures var once := NormalizeArPhone("111515" + local);
            NormalizeArPhone(once) != once && NormalizeArPhone(once) == "+54911" + local
  {
    DoubleMarkerNormalized(local);
    DoubleMarkerRenormalized(local);
  }
}
