/**
 * Facts about the SQL text the product listing builds: how many `?`
 * placeholders a piece of text holds, and how an integer is written into the
 * text by a JavaScript template literal (`${limit}`).
 */
module SqlText {

  /** The number of `?` placeholders in `s`. */
  function Placeholders(s: string): nat
  {
    if s == [] then 0
    else Placeholders(s[..|s| - 1]) + (if s[|s| - 1] == '?' then 1 else 0)
  }

  /** Placeholders add up over concatenation. */
  lemma {:induction false} PlaceholdersAppend(a: string, b: string)
    ensures Placeholders(a + b) == Placeholders(a) + Placeholders(b)
  {
    if b == [] {
      assert a + b == a;
    } else {
      assert (a + b)[..|a + b| - 1] == a + b[..|b| - 1];
      PlaceholdersAppend(a, b[..|b| - 1]);
    }
  }

  /** Text without a `?` character holds no placeholder. */
  lemma {:induction false} NoPlaceholders(s: string)
    requires '?' !in s
    ensures Placeholders(s) == 0
  {
    if s != [] {
      assert s == s[..|s| - 1] + [s[|s| - 1]];
      NoPlaceholders(s[..|s| - 1]);
    }
  }

  /** Text made of a `?`-free part followed by one `?`. */
  lemma OnePlaceholder(a: string)
    requires '?' !in a
    ensures Placeholders(a + "?") == Placeholders(a) + 1 == 1
  {
    PlaceholdersAppend(a, "?");
    NoPlaceholders(a);
    assert Placeholders("?") == 1 by {
      assert "?"[..0] == [];
    }
  }

  /** Text with three `?` between four `?`-free parts. */
  lemma ThreePlaceholders(a: string, b: string, c: string, d: string)
    requires '?' !in a && '?' !in b && '?' !in c && '?' !in d
    ensures Placeholders(a + "?" + b + "?" + c + "?" + d) == 3
  {
    var x, y, z := a + "?", b + "?", c + "?";
    assert a + "?" + b + "?" + c + "?" + d == x + y + z + d;
    OnePlaceholder(a);
    OnePlaceholder(b);
    OnePlaceholder(c);
    NoPlaceholders(d);
    PlaceholdersAppend(x, y);
    PlaceholdersAppend(x + y, z);
    PlaceholdersAppend(x + y + z, d);
  }

  predicate IsDigit(c: char)
  {
    '0' <= c <= '9'
  }

  predicate AllDigits(s: string)
  {
    forall i :: 0 <= i < |s| ==> IsDigit(s[i])
  }

  /** The decimal digit character for `d`. */
  function Digit(d: nat): (c: char)
    requires d < 10
    ensures IsDigit(c) && c as int - '0' as int == d
  {
    ('0' as int + d) as char
  }

  /**
   * The decimal text JavaScript produces for a non-negative integer number
   * in a template literal: at least one digit, only digits, and no leading
   * zero unless the number is zero.
   */
  function NatToString(n: nat): (s: string)
    ensures |s| >= 1 && AllDigits(s)
    ensures s[0] == '0' <==> n == 0
    decreases n
  {
    if n < 10 then [Digit(n)] else NatToString(n / 10) + [Digit(n % 10)]
  }

  /** The number a string of decimal digits denotes. */
  function DigitsValue(s: string): nat
    requires AllDigits(s)
  {
    if s == [] then 0
    else DigitsValue(s[..|s| - 1]) * 10 + (s[|s| - 1] as int - '0' as int)
  }

  /** Reading the digits back gives the number that was written. */
  lemma {:induction false} DigitsRoundTrip(n: nat)
    ensures DigitsValue(NatToString(n)) == n
    decreases n
  {
    var s := NatToString(n);
    if n >= 10 {
      var prefix := NatToString(n / 10);
      assert s[..|s| - 1] == prefix;
      DigitsRoundTrip(n / 10);
    } else {
      assert s[..0] == [];
    }
  }

  /** A number written into the text never adds a placeholder. */
  lemma NumberHasNoPlaceholder(n: nat)
    ensures Placeholders(NatToString(n)) == 0
  {
    NoPlaceholders(NatToString(n));
  }
}
