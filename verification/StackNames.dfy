/** Stack names with zero-padded numbers, and the short form used for NetBird resources. */
module StackNames {
  import opened Common
  import opened Text

  function Zeros(n: nat): (s: string)
    ensures |s| == n && Digits(s)
  {
    if n == 0 then "" else "0" + Zeros(n - 1)
  }

  /** A number with ten digits, or with as many as it takes. */
  function Padded(n: nat): (s: string)
    ensures |s| >= 10 && Digits(s)
    ensures |s| > 10 ==> s == Decimal(n)
  {
    var s := Decimal(n);
    if |s| < 10 then Zeros(10 - |s|) + s else s
  }

  function Suffix(pool: string, unit: string): string {
    "-p" + pool + "-s" + unit
  }

  /** `get_stack_name` for a configured prefix. */
  function StackName(prefix: string, pool: nat, unit: nat): string {
    prefix + Suffix(Padded(pool), Padded(unit))
  }

  /** The digits a text starts with. */
  function DigitRun(s: string): (n: nat)
    ensures n <= |s| && Digits(s[..n])
    ensures n < |s| ==> !Digit(s[n])
  {
    if s == "" || !Digit(s[0]) then 0 else 1 + DigitRun(s[1..])
  }

  /** The two numbers when the whole of `s` is `-p`, digits, `-s`, digits. */
  function MatchSuffix(s: string): Option<(string, string)> {
    if |s| < 2 || s[..2] != "-p" then None
    else
      var rest := s[2..];
      var n := DigitRun(rest);
      if n == 0 || |rest| < n + 2 || rest[n..n + 2] != "-s" then None
      else
        var tail := rest[n + 2..];
        if tail == "" || DigitRun(tail) < |tail| then None else Some((rest[..n], tail))
  }

  /** Leading zeros are dropped, but not the last digit. */
  function StripZeros(digits: string): string {
    if |digits| > 1 && digits[0] == '0' then StripZeros(digits[1..]) else digits
  }

  /** `_short_stack_name`: the leftmost match of the suffix pattern is rewritten. */
  function ShortStackName(name: string): string {
    if name == "" then ""
    else
      match MatchSuffix(name)
      case Some((pool, unit)) => "-p" + StripZeros(pool) + "-s" + StripZeros(unit)
      case None => [name[0]] + ShortStackName(name[1..])
  }

  // ---- The short form undoes the padding ----

  lemma {:induction false} StripPadding(k: nat, n: nat)
    ensures StripZeros(Zeros(k) + Decimal(n)) == Decimal(n)
  {
    if k == 0 {
      assert Zeros(0) + Decimal(n) == Decimal(n);
    } else {
      assert (Zeros(k) + Decimal(n))[1..] == Zeros(k - 1) + Decimal(n);
      StripPadding(k - 1, n);
    }
  }

  lemma StripPadded(n: nat)
    ensures StripZeros(Padded(n)) == Decimal(n)
  {
    var s := Decimal(n);
    StripPadding(if |s| < 10 then 10 - |s| else 0, n);
    assert Zeros(0) + s == s;
  }

  lemma {:induction false} ValueOfZeros(k: nat, s: string)
    requires Digits(s)
    ensures Digits(Zeros(k) + s) && Value(Zeros(k) + s) == Value(s)
  {
    if s == "" {
      if k > 0 {
        ValueOfZeros(k - 1, "");
        ZerosEnd(k);
        assert Zeros(k)[..k - 1] + "" == Zeros(k - 1) + "";
        assert (Zeros(k) + "")[..k - 1] == Zeros(k - 1) + "";
      }
    } else {
      var t := Zeros(k) + s;
      ValueOfZeros(k, s[..|s| - 1]);
      assert t[..|t| - 1] == Zeros(k) + s[..|s| - 1] && t[|t| - 1] == s[|s| - 1];
    }
  }

  lemma {:induction false} ZerosEnd(k: nat)
    requires k > 0
    ensures Zeros(k)[..k - 1] == Zeros(k - 1) && Zeros(k)[k - 1] == '0'
  {
    if k > 1 {
      ZerosEnd(k - 1);
    }
  }

  /** The padded form of a number has its value, and no more than ten digits unless the number needs them. */
  lemma {:induction false} PaddedIsTenDigits(n: nat)
    ensures Value(Padded(n)) == n
    ensures |Padded(n)| == 10 || (|Padded(n)| > 10 && Padded(n)[0] != '0')
  {
    ValueOfDecimal(n);
    ValueOfZeros(if |Decimal(n)| < 10 then 10 - |Decimal(n)| else 0, Decimal(n));
  }

  lemma {:induction false} DigitRunOf(digits: string, rest: string)
    requires Digits(digits) && (rest == "" || !Digit(rest[0]))
    ensures DigitRun(digits + rest) == |digits|
  {
    if digits == "" {
      assert digits + rest == rest;
    } else {
      assert digits[0] in digits;
      assert (digits + rest)[1..] == digits[1..] + rest;
      DigitRunOf(digits[1..], rest);
    }
  }

  lemma MatchOfSuffix(pool: string, unit: string)
    requires pool != "" && unit != "" && Digits(pool) && Digits(unit)
    ensures MatchSuffix(Suffix(pool, unit)) == Some((pool, unit))
  {
    var s := Suffix(pool, unit);
    assert s[..2] == "-p";
    assert s[2..] == pool + ("-s" + unit);
    DigitRunOf(pool, "-s" + unit);
    assert s[2..][|pool|..|pool| + 2] == "-s";
    assert s[2..][|pool| + 2..] == unit;
    DigitRunOf(unit, "");
    assert unit + "" == unit;
  }

  /** Two ways to cut a text before its trailing digits cut it at the same place. */
  lemma SameDigitTail(a: string, b: string, c: string, d: string)
    requires a + b == c + d && Digits(b) && Digits(d)
    requires a != "" && !Digit(a[|a| - 1]) && c != "" && !Digit(c[|c| - 1])
    ensures a == c && b == d
  {
    assert (a + b)[..|a|] == a && (c + d)[..|c|] == c;
    assert (a + b)[|a|..] == b && (c + d)[|c|..] == d;
  }

  /** Equal names with numbers behind them have equal parts. */
  lemma SameSuffix(prefix: string, pool: string, unit: string, prefix': string, pool': string, unit': string)
    requires prefix + Suffix(pool, unit) == prefix' + Suffix(pool', unit')
    requires Digits(pool) && Digits(unit) && Digits(pool') && Digits(unit')
    ensures prefix == prefix' && pool == pool' && unit == unit'
  {
    var a, c := prefix + "-p" + pool + "-s", prefix' + "-p" + pool' + "-s";
    assert prefix + Suffix(pool, unit) == a + unit && prefix' + Suffix(pool', unit') == c + unit';
    SameDigitTail(a, unit, c, unit');
    var b, d := prefix + "-p", prefix' + "-p";
    assert a[..|a| - 2] == b + pool && c[..|c| - 2] == d + pool';
    SameDigitTail(b, pool, d, pool');
    assert b[..|b| - 2] == prefix && d[..|d| - 2] == prefix';
  }

  lemma MatchIsSuffix(s: string)
    requires MatchSuffix(s).Some?
    ensures var (pool, unit) := MatchSuffix(s).value;
            s == Suffix(pool, unit) && Digits(pool) && Digits(unit)
  {
    var (pool, unit) := MatchSuffix(s).value;
    var rest := s[2..];
    assert s == s[..2] + rest;
    assert rest == pool + rest[|pool|..|pool| + 2] + unit;
    assert unit[..DigitRun(unit)] == unit;
  }

  lemma {:induction false} ShortOfSuffix(prefix: string, pool: string, unit: string)
    requires pool != "" && unit != "" && Digits(pool) && Digits(unit)
    ensures ShortStackName(prefix + Suffix(pool, unit)) == prefix + Suffix(StripZeros(pool), StripZeros(unit))
  {
    var s := prefix + Suffix(pool, unit);
    if prefix == "" {
      assert s == Suffix(pool, unit);
      MatchOfSuffix(pool, unit);
    } else {
      if MatchSuffix(s).Some? {
        MatchIsSuffix(s);
        var (pool', unit') := MatchSuffix(s).value;
        assert "" + Suffix(pool', unit') == s;
        SameSuffix(prefix, pool, unit, "", pool', unit');
      }
      assert s[1..] == prefix[1..] + Suffix(pool, unit);
      ShortOfSuffix(prefix[1..], pool, unit);
    }
  }

  /** For every prefix and all ids the short name is the stack name without the padding. */
  lemma {:induction false} ShorteningUndoesPadding(prefix: string, pool: nat, unit: nat)
    ensures ShortStackName(StackName(prefix, pool, unit)) == prefix + Suffix(Decimal(pool), Decimal(unit))
  {
    ShortOfSuffix(prefix, Padded(pool), Padded(unit));
    StripPadded(pool);
    StripPadded(unit);
  }

  /** The whole of `s` is what stands behind the prefix of a stack name. */
  ghost predicate IsSuffix(s: string) {
    exists pool, unit :: pool != "" && unit != "" && Digits(pool) && Digits(unit) && s == Suffix(pool, unit)
  }

  lemma {:induction false} MatchSuffixIff(s: string)
    ensures MatchSuffix(s).Some? <==> IsSuffix(s)
  {
    if MatchSuffix(s).Some? {
      MatchIsSuffix(s);
    }
    if pool, unit :| pool != "" && unit != "" && Digits(pool) && Digits(unit) && s == Suffix(pool, unit) {
      MatchOfSuffix(pool, unit);
    }
  }

  /** A name that does not end like a stack name is returned as it is. */
  lemma {:induction false} OtherNamesStay(name: string)
    requires forall k | 0 <= k <= |name| :: !IsSuffix(name[k..])
    ensures ShortStackName(name) == name
  {
    if name != "" {
      MatchSuffixIff(name);
      assert name[0..] == name;
      forall k | 0 <= k <= |name[1..]|
        ensures !IsSuffix(name[1..][k..])
      {
        assert name[1..][k..] == name[k + 1..];
      }
      OtherNamesStay(name[1..]);
    }
  }

  /** Different units get different short names, and so do different pools. */
  lemma {:induction false} ShortNamesAreDistinct(prefix: string, pool: nat, unit: nat, pool': nat, unit': nat)
    requires ShortStackName(StackName(prefix, pool, unit)) == ShortStackName(StackName(prefix, pool', unit'))
    ensures pool == pool' && unit == unit'
  {
    ShorteningUndoesPadding(prefix, pool, unit);
    ShorteningUndoesPadding(prefix, pool', unit');
    SameSuffix(prefix, Decimal(pool), Decimal(unit), prefix, Decimal(pool'), Decimal(unit'));
    ValueOfDecimal(pool);
    ValueOfDecimal(pool');
    ValueOfDecimal(unit);
    ValueOfDecimal(unit');
  }
}
