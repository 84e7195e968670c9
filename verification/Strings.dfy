/** The order Go gives strings, and decimals. */
module Strings {

  predicate Less(a: string, b: string)
  {
    b != "" && (a == "" || a[0] < b[0] || (a[0] == b[0] && Less(a[1..], b[1..])))
  }

  lemma LessIrreflexive(a: string)
    ensures !Less(a, a)
  {
  }

  lemma {:induction false} LessTransitive(a: string, b: string, c: string)
    requires Less(a, b) && Less(b, c)
    ensures Less(a, c)
  {
    if a != "" && a[0] == b[0] == c[0] {
      LessTransitive(a[1..], b[1..], c[1..]);
    }
  }

  lemma {:induction false} LessTotal(a: string, b: string)
    ensures a == b || Less(a, b) || Less(b, a)
  {
    if a != "" && b != "" && a[0] == b[0] {
      LessTotal(a[1..], b[1..]);
      assert a == [a[0]] + a[1..] && b == [b[0]] + b[1..];
    }
  }

  lemma {:induction false} LessConcat(a: string, b: string, x: string, y: string)
    requires |a| == |b|
    ensures Less(a + x, b + y) <==> Less(a, b) || (a == b && Less(x, y))
  {
    if a == "" {
      assert a + x == x && b + y == y;
    } else {
      assert (a + x)[1..] == a[1..] + x && (b + y)[1..] == b[1..] + y;
      assert a == b <==> a[0] == b[0] && a[1..] == b[1..] by {
        assert a == [a[0]] + a[1..] && b == [b[0]] + b[1..];
      }
      LessConcat(a[1..], b[1..], x, y);
    }
  }

  function Power10(width: nat): nat
  {
    if width == 0 then 1 else 10 * Power10(width - 1)
  }

  function Digit(n: nat): char
    requires n < 10
  {
    '0' + n as char
  }

  /** `n` with leading zeros, as `%0*d` prints it. */
  function Pad(n: nat, width: nat): (s: string)
    requires n < Power10(width)
    ensures |s| == width
  {
    if width == 0 then "" else Pad(n / 10, width - 1) + [Digit(n % 10)]
  }

  lemma {:induction false} PadOrder(a: nat, b: nat, width: nat)
    requires a < Power10(width) && b < Power10(width)
    ensures Less(Pad(a, width), Pad(b, width)) <==> a < b
    ensures Pad(a, width) == Pad(b, width) <==> a == b
  {
    if width > 0 {
      PadOrder(a / 10, b / 10, width - 1);
      var x, y := [Digit(a % 10)], [Digit(b % 10)];
      LessConcat(Pad(a / 10, width - 1), Pad(b / 10, width - 1), x, y);
      assert Less(x, y) <==> a % 10 < b % 10 by {
        assert x[1..] == "" && y[1..] == "";
      }
      assert Pad(a, width)[..width - 1] == Pad(a / 10, width - 1)
          && Pad(b, width)[..width - 1] == Pad(b / 10, width - 1);
      assert Pad(a, width)[width - 1] == Digit(a % 10) && Pad(b, width)[width - 1] == Digit(b % 10);
    }
  }

  predicate IsDigit(c: char)
  {
    '0' <= c <= '9'
  }

  /** `n` as `%d` prints it. */
  function Decimal(n: nat): string
  {
    (if n < 10 then "" else Decimal(n / 10)) + [Digit(n % 10)]
  }

  function Integer(i: int): string
  {
    if i < 0 then "-" + Decimal(-i) else Decimal(i)
  }

  function DecimalValue(s: string): nat
  {
    if s == "" then 0
    else
      var c := s[|s| - 1];
      10 * DecimalValue(s[..|s| - 1]) + if IsDigit(c) then c as nat - '0' as nat else 0
  }

  lemma {:induction false} DecimalReads(n: nat)
    ensures DecimalValue(Decimal(n)) == n && Decimal(n) != "" && forall c | c in Decimal(n) :: IsDigit(c)
  {
    var s := Decimal(n);
    if n >= 10 {
      DecimalReads(n / 10);
      assert s[..|s| - 1] == Decimal(n / 10);
    } else {
      assert s[..|s| - 1] == "";
    }
  }

  function Join(parts: seq<string>, separator: string): string
  {
    if parts == [] then ""
    else if |parts| == 1 then parts[0]
    else Join(parts[..|parts| - 1], separator) + separator + parts[|parts| - 1]
  }

  /** Where `stop` first occurs in `s`, or its length. */
  function Until(s: string, stop: char): (n: nat)
    ensures n <= |s| && stop !in s[..n] && (n < |s| ==> s[n] == stop)
  {
    if s == "" || s[0] == stop then 0
    else
      var n := Until(s[1..], stop);
      assert s[..n + 1] == [s[0]] + s[1..][..n];
      n + 1
  }

  lemma {:induction false} UntilOf(s: string, stop: char, rest: string)
    requires stop !in s && (rest == "" || rest[0] == stop)
    ensures Until(s + rest, stop) == |s| && (s + rest)[..|s|] == s && (s + rest)[|s|..] == rest
  {
    if s == "" {
      assert s + rest == rest;
    } else {
      assert (s + rest)[1..] == s[1..] + rest;
      UntilOf(s[1..], stop, rest);
    }
  }

  function IntegerValue(s: string): int
  {
    if s != "" && s[0] == '-' then 0 - DecimalValue(s[1..]) else DecimalValue(s)
  }

  lemma IntegerReads(i: int)
    ensures IntegerValue(Integer(i)) == i
  {
    DecimalReads(if i < 0 then -i else i);
    if i < 0 {
      assert Integer(i)[1..] == Decimal(-i);
    } else {
      assert Integer(i)[0] in Decimal(i);
    }
  }
}
