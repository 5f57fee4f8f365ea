/** The PHP built-ins whose exact behaviour the plugin's decisions depend on:
    `empty()` on a string setting, `bin2hex` for the anti-forgery token and
    `explode` for splitting the identity token. */
module Php {
  import opened Wrappers

  type Byte = b: int | 0 <= b < 256

  /** `empty($v)` for a value that is a string or null: null, "" and "0" are empty. */
  predicate Empty(v: Option<string>) {
    v.None? || v.value == "" || v.value == "0"
  }

  // ---------------------------------------------------------------------------
  // bin2hex, and hex2bin as its inverse
  // ---------------------------------------------------------------------------

  predicate IsLowerHex(c: char) {
    '0' <= c <= '9' || 'a' <= c <= 'f'
  }

  /** The lower-case hexadecimal digit for a nibble. */
  function HexDigit(n: nat): (c: char)
    requires n < 16
    ensures IsLowerHex(c)
  {
    if n < 10 then ('0' as int + n) as char else ('a' as int + n - 10) as char
  }

  function HexValue(c: char): (n: nat)
    requires IsLowerHex(c)
    ensures n < 16
  {
    if c <= '9' then c as int - '0' as int else c as int - 'a' as int + 10
  }

  /** `bin2hex`: two lower-case digits per byte, high nibble first. */
  function Bin2Hex(bytes: seq<Byte>): (hex: string)
    ensures |hex| == 2 * |bytes|
    ensures forall i :: 0 <= i < |hex| ==> IsLowerHex(hex[i])
  {
    if bytes == [] then []
    else [HexDigit(bytes[0] / 16), HexDigit(bytes[0] % 16)] + Bin2Hex(bytes[1..])
  }

  /** `hex2bin` on well-formed lower-case input. */
  function Hex2Bin(hex: string): (bytes: seq<Byte>)
    requires |hex| % 2 == 0
    requires forall i :: 0 <= i < |hex| ==> IsLowerHex(hex[i])
    ensures |bytes| == |hex| / 2
  {
    if hex == [] then []
    else [16 * HexValue(hex[0]) + HexValue(hex[1])] + Hex2Bin(hex[2..])
  }

  /** Decoding a token recovers every byte it was made from. */
  lemma {:induction false} Hex2BinBin2Hex(bytes: seq<Byte>)
    ensures Hex2Bin(Bin2Hex(bytes)) == bytes
  {
    if bytes != [] {
      var hex := Bin2Hex(bytes);
      assert hex[2..] == Bin2Hex(bytes[1..]);
      Hex2BinBin2Hex(bytes[1..]);
    }
  }

  /** Distinct random inputs give distinct tokens: bin2hex loses no entropy. */
  lemma Bin2HexInjective(a: seq<Byte>, b: seq<Byte>)
    requires Bin2Hex(a) == Bin2Hex(b)
    ensures a == b
  {
    Hex2BinBin2Hex(a);
    Hex2BinBin2Hex(b);
  }

  // ---------------------------------------------------------------------------
  // explode, and implode as its inverse
  // ---------------------------------------------------------------------------

  /** `explode($sep, $s)` for a one-character separator: the pieces between
      separators, always at least one (the empty string gives `[""]`). */
  function Explode(sep: char, s: string): (parts: seq<string>)
    ensures |parts| >= 1
    ensures forall i :: 0 <= i < |parts| ==> sep !in parts[i]
    decreases |s|
  {
    if s == [] then [[]]
    else if s[0] == sep then [[]] + Explode(sep, s[1..])
    else
      var rest := Explode(sep, s[1..]);
      [[s[0]] + rest[0]] + rest[1..]
  }

  /** `implode($sep, $parts)` on a non-empty list. */
  function Implode(sep: char, parts: seq<string>): string
    requires |parts| >= 1
    decreases |parts|
  {
    if |parts| == 1 then parts[0] else parts[0] + [sep] + Implode(sep, parts[1..])
  }

  lemma ImplodeConsFirst(sep: char, c: char, parts: seq<string>)
    requires |parts| >= 1
    ensures Implode(sep, [[c] + parts[0]] + parts[1..]) == [c] + Implode(sep, parts)
  {
    var q := [[c] + parts[0]] + parts[1..];
    assert q[1..] == parts[1..];
  }

  /** Joining the pieces again gives back the original string. */
  lemma {:induction false} ImplodeExplode(sep: char, s: string)
    ensures Implode(sep, Explode(sep, s)) == s
    decreases |s|
  {
    if s == [] {
    } else if s[0] == sep {
      ImplodeExplode(sep, s[1..]);
      var parts := Explode(sep, s);
      assert parts[1..] == Explode(sep, s[1..]);
    } else {
      ImplodeExplode(sep, s[1..]);
      ImplodeConsFirst(sep, s[0], Explode(sep, s[1..]));
    }
  }

  /** A separator-free string is one piece. */
  lemma {:induction false} ExplodeFree(sep: char, a: string)
    requires sep !in a
    ensures Explode(sep, a) == [a]
    decreases |a|
  {
    if a != [] {
      ExplodeFree(sep, a[1..]);
      assert [a[0]] + a[1..] == a;
    }
  }

  /** A separator-free prefix followed by the separator is exactly the first piece. */
  lemma {:induction false} ExplodeAfterFirst(sep: char, a: string, b: string)
    requires sep !in a
    ensures Explode(sep, a + [sep] + b) == [a] + Explode(sep, b)
    decreases |a|
  {
    if a == [] {
      assert (a + [sep] + b)[1..] == b;
    } else {
      var s := a + [sep] + b;
      assert s[0] == a[0] && s[1..] == a[1..] + [sep] + b;
      ExplodeAfterFirst(sep, a[1..], b);
      assert [a[0]] + a[1..] == a;
    }
  }

  /** Splitting a join of separator-free pieces gives back the pieces. */
  lemma {:induction false} ExplodeImplode(sep: char, parts: seq<string>)
    requires |parts| >= 1
    requires forall i :: 0 <= i < |parts| ==> sep !in parts[i]
    ensures Explode(sep, Implode(sep, parts)) == parts
    decreases |parts|
  {
    if |parts| == 1 {
      ExplodeFree(sep, parts[0]);
    } else {
      ExplodeImplode(sep, parts[1..]);
      ExplodeAfterFirst(sep, parts[0], Implode(sep, parts[1..]));
      assert [parts[0]] + parts[1..] == parts;
    }
  }
}
