/**
 File content and its revision text. SHA-256 is represented by a constructor, so it is an abstract
 function about which only injectivity is known; the revision text is the quoted hexadecimal digest.
 */
module Content {
  newtype byte = b: int | 0 <= b < 256

  datatype Option<+T> = None | Some(value: T)

  datatype Digest = Sha256(preimage: seq<byte>)

  /** Lower-case hexadecimal digit of a value below 16. */
  function HexDigit(n: int): (c: char)
    requires 0 <= n < 16
  {
    "0123456789abcdef"[n]
  }

  function Hex(bytes: seq<byte>): (text: string)
    ensures |text| == 2 * |bytes|
  {
    if bytes == [] then ""
    else [HexDigit(bytes[0] as int / 16), HexDigit(bytes[0] as int % 16)] + Hex(bytes[1..])
  }

  /** The entity tag of a regular file whose content has this digest. */
  function DigestRevision(digest: Digest): (text: string)
  {
    "\"sha256-" + Hex(digest.preimage) + "\""
  }

  function Revision(content: seq<byte>): (text: string)
  {
    DigestRevision(Sha256(content))
  }

  lemma {:induction false} HexDigitInjective(m: int, n: int)
    requires 0 <= m < 16 && 0 <= n < 16
    requires HexDigit(m) == HexDigit(n)
    ensures m == n
  {
  }

  lemma {:induction false} HexInjective(a: seq<byte>, b: seq<byte>)
    requires Hex(a) == Hex(b)
    ensures a == b
  {
    assert |a| == |b|;
    if a != [] {
      var x, y := Hex(a), Hex(b);
      assert x[0] == HexDigit(a[0] as int / 16) && x[1] == HexDigit(a[0] as int % 16);
      assert y[0] == HexDigit(b[0] as int / 16) && y[1] == HexDigit(b[0] as int % 16);
      HexDigitInjective(a[0] as int / 16, b[0] as int / 16);
      HexDigitInjective(a[0] as int % 16, b[0] as int % 16);
      assert a[0] == b[0];
      assert x[2..] == Hex(a[1..]) && y[2..] == Hex(b[1..]);
      HexInjective(a[1..], b[1..]);
      assert a == [a[0]] + a[1..] && b == [b[0]] + b[1..];
    }
  }

  /** Two files have the same revision exactly when they have the same content. */
  lemma {:induction false} RevisionIdentifiesContent(a: seq<byte>, b: seq<byte>)
    ensures Revision(a) == Revision(b) <==> a == b
  {
    if Revision(a) == Revision(b) {
      var x, y := Revision(a), Revision(b);
      var prefix := "\"sha256-";
      assert x[|prefix|..|x| - 1] == Hex(a) && y[|prefix|..|y| - 1] == Hex(b);
      HexInjective(a, b);
    }
  }
}
