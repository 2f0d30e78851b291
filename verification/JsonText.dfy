/**
 How long a string or number is once Go's encoding/json has written it, with its default escaping for HTML. Only the
 length matters here: the journal refuses to read what is too long.
 */
module JsonText {
  /** Bytes that one character takes: short escapes, six-byte escapes, or the character in UTF-8. */
  function CharLength(c: char): (n: nat)
    ensures 1 <= n <= 6
  {
    if c == '\"' || c == '\\' || c == '\n' || c == '\r' || c == '\t' || c as int == 8 || c as int == 12 then 2
    else if c as int < 0x20 || c == '&' || c == '<' || c == '>' || c as int == 0x2028 || c as int == 0x2029 then 6
    else if c as int < 0x80 then 1
    else if c as int < 0x800 then 2
    else if c as int < 0x1_0000 then 3
    else 4
  }

  /** Bytes between the quotes. */
  function TextLength(s: string): (n: nat)
    ensures |s| <= n <= 6 * |s|
  {
    if s == "" then 0 else CharLength(s[0]) + TextLength(s[1..])
  }

  function Quoted(s: string): (n: nat) {
    TextLength(s) + 2
  }

  /** Digits of a number that is not negative. */
  function Digits(n: nat): (d: nat)
    ensures d >= 1
  {
    if n < 10 then 1 else 1 + Digits(n / 10)
  }

  lemma {:induction false} ThreeDigits(n: nat)
    requires n < 1000
    ensures Digits(n) <= 3
    ensures n >= 100 ==> Digits(n) == 3
  {
    assert n / 10 / 10 < 10;
    assert Digits(n / 10 / 10) == 1;
    assert n / 10 >= 10 ==> Digits(n / 10) == 2;
  }

  lemma {:induction false} TextLengthAdds(a: string, b: string)
    ensures TextLength(a + b) == TextLength(a) + TextLength(b)
    decreases |a|
  {
    if a == "" {
      assert a + b == b;
    } else {
      assert (a + b)[1..] == a[1..] + b;
      TextLengthAdds(a[1..], b);
    }
  }

  function Repeat(c: char, n: nat): (s: string)
    ensures |s| == n
  {
    if n == 0 then "" else [c] + Repeat(c, n - 1)
  }

  lemma {:induction false} RepeatLength(c: char, n: nat)
    ensures TextLength(Repeat(c, n)) == CharLength(c) * n
  {
    if n > 0 {
      assert Repeat(c, n)[1..] == Repeat(c, n - 1);
      RepeatLength(c, n - 1);
    }
  }
}
