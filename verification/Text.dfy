/** Strings as the service uses them: their order, comma-joined lists, and decimal numbers. */
module Text {

  // ---- Order ----

  /** The order of strings by code points. */
  predicate Less(a: string, b: string) {
    b != [] && (a == [] || a[0] < b[0] || (a[0] == b[0] && Less(a[1..], b[1..])))
  }

  predicate AtMost(a: string, b: string) {
    a == b || Less(a, b)
  }

  lemma {:induction false} LessIsTotal(a: string, b: string)
    ensures a == b || Less(a, b) || Less(b, a)
    ensures !(Less(a, b) && Less(b, a)) && !Less(a, a)
  {
    LessIsIrreflexive(a);
    if a != [] && b != [] {
      LessIsTotal(a[1..], b[1..]);
      assert a == [a[0]] + a[1..] && b == [b[0]] + b[1..];
    }
  }

  lemma {:induction false} LessIsIrreflexive(a: string)
    ensures !Less(a, a)
  {
    if a != [] {
      LessIsIrreflexive(a[1..]);
    }
  }

  lemma {:induction false} LessIsTransitive(a: string, b: string, c: string)
    requires Less(a, b) && Less(b, c)
    ensures Less(a, c)
  {
    if a != [] && a[0] == b[0] == c[0] {
      LessIsTransitive(a[1..], b[1..], c[1..]);
    }
  }

  /** The first difference decides, by code point; a text that ends there comes first. */
  lemma {:induction false} FirstDifferenceDecides(common: string, a: string, b: string)
    ensures b != "" && (a == "" || a[0] < b[0]) ==> Less(common + a, common + b)
  {
    if common == "" {
      assert common + a == a && common + b == b;
    } else {
      FirstDifferenceDecides(common[1..], a, b);
      assert (common + a)[1..] == common[1..] + a && (common + b)[1..] == common[1..] + b;
    }
  }

  // ---- Comma-joined lists ----

  function Join(parts: seq<string>): string {
    if parts == [] then "" else if |parts| == 1 then parts[0] else parts[0] + "," + Join(parts[1..])
  }

  /** The text before the first comma. */
  function Head(s: string): (h: string)
    ensures |h| <= |s| && h == s[..|h|] && ',' !in h
    ensures |h| < |s| ==> s[|h|] == ','
  {
    if s == "" || s[0] == ',' then "" else [s[0]] + Head(s[1..])
  }

  function Split(s: string): (parts: seq<string>)
    ensures forall p <- parts :: ',' !in p
  {
    var h := Head(s);
    if |h| == |s| then [s] else [h] + Split(s[|h| + 1..])
  }

  function NonEmpty(parts: seq<string>): (r: seq<string>)
    ensures forall p <- r :: p != "" && p in parts
  {
    if parts == [] then [] else (if parts[0] == "" then [] else [parts[0]]) + NonEmpty(parts[1..])
  }

  /** Not empty and without a comma. */
  predicate Plain(s: string) {
    s != "" && ',' !in s
  }

  lemma {:induction false} HeadOf(a: string, rest: string)
    requires ',' !in a && (rest == "" || rest[0] == ',')
    ensures Head(a + rest) == a
  {
    if a != "" {
      assert (a + rest)[1..] == a[1..] + rest;
      HeadOf(a[1..], rest);
      assert a == [a[0]] + a[1..];
    } else {
      assert a + rest == rest;
    }
  }

  lemma {:induction false} SplitOfJoin(parts: seq<string>)
    requires parts != [] && forall p <- parts :: ',' !in p
    ensures Split(Join(parts)) == parts
  {
    assert parts[0] in parts;
    if |parts| == 1 {
      HeadOf(parts[0], "");
      assert parts[0] + "" == parts[0];
    } else {
      var rest := "," + Join(parts[1..]);
      assert Join(parts) == parts[0] + rest;
      HeadOf(parts[0], rest);
      assert Join(parts)[|parts[0]| + 1..] == Join(parts[1..]);
      SplitOfJoin(parts[1..]);
    }
  }

  lemma {:induction false} NonEmptyKeeps(parts: seq<string>)
    requires forall i | 0 <= i < |parts| :: parts[i] != ""
    ensures NonEmpty(parts) == parts
  {
    if parts != [] {
      NonEmptyKeeps(parts[1..]);
    }
  }

  /** Only the empty parts are dropped, and the others keep their order. */
  lemma {:induction false} NonEmptySnoc(parts: seq<string>, last: string)
    ensures NonEmpty(parts + [last]) == NonEmpty(parts) + if last == "" then [] else [last]
  {
    if parts == [] {
      assert parts + [last] == [last];
    } else {
      NonEmptySnoc(parts[1..], last);
      assert (parts + [last])[1..] == parts[1..] + [last];
    }
  }

  // ---- Decimal numbers ----

  predicate Digit(c: char) {
    '0' <= c <= '9'
  }

  predicate Digits(s: string) {
    forall c <- s :: Digit(c)
  }

  function Decimal(n: nat): (s: string)
    ensures s != "" && Digits(s)
    ensures n > 0 ==> s[0] != '0'
    ensures n == 0 ==> s == "0"
  {
    var d := '0' + (n % 10) as char;
    if n < 10 then [d] else Decimal(n / 10) + [d]
  }

  function Value(s: string): nat
    requires Digits(s)
  {
    if s == "" then 0 else
      assert s[|s| - 1] in s;
      10 * Value(s[..|s| - 1]) + (s[|s| - 1] - '0') as nat
  }

  lemma {:induction false} ValueOfDecimal(n: nat)
    ensures Value(Decimal(n)) == n
  {
    var s := Decimal(n);
    assert (s[|s| - 1] - '0') as nat == n % 10;
    if n >= 10 {
      assert s[..|s| - 1] == Decimal(n / 10);
      ValueOfDecimal(n / 10);
    } else {
      assert s[..|s| - 1] == "";
    }
  }
}
