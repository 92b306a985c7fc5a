/** Shared vocabulary: optional values and results for the source's
    `undefined` and exceptions, bytes, and the few JavaScript string
    operations the server relies on (`endsWith`, `includes`, `slice`). */
module Common {

  datatype Option<+T> = None | Some(value: T)

  datatype Result<+T, +E> = Ok(value: T) | Err(error: E)

  newtype byte = x: int | 0 <= x < 256

  function Min(a: int, b: int): int { if a <= b then a else b }

  /** `s.endsWith(suffix)` */
  predicate EndsWith(s: string, suffix: string) {
    |suffix| <= |s| && s[|s| - |suffix|..] == suffix
  }

  /** `s.startsWith(prefix)` */
  predicate StartsWith(s: string, prefix: string) {
    |prefix| <= |s| && s[..|prefix|] == prefix
  }

  /** `s.includes(needle)`: `needle` occurs in `s` as a contiguous piece */
  predicate Includes(s: string, needle: string)
    decreases |s|
  {
    StartsWith(s, needle) || (|s| > 0 && Includes(s[1..], needle))
  }

  /** Every contiguous piece of `s` is included in it. */
  lemma {:induction false} IncludesSlice(s: string, i: nat, j: nat)
    requires i <= j <= |s|
    ensures Includes(s, s[i..j])
    decreases i
  {
    if i == 0 {
      assert s[..j - i] == s[i..j];
    } else {
      var tail := s[1..];
      IncludesSlice(tail, i - 1, j - 1);
      assert |tail[i - 1..j - 1]| == |s[i..j]|;
      assert forall k :: 0 <= k < j - i ==> tail[i - 1..j - 1][k] == s[i..j][k];
      assert tail[i - 1..j - 1] == s[i..j];
      assert Includes(tail, s[i..j]);
    }
  }

  /** `s.slice(0, n)` for a non-negative `n`: the first `n` characters, or all of `s` */
  function Prefix<T>(s: seq<T>, n: nat): (r: seq<T>)
    ensures |r| == Min(n, |s|)
    ensures forall i :: 0 <= i < |r| ==> r[i] == s[i]
  {
    if n <= |s| then s[..n] else s
  }

  /** `s.slice(-n)` for a positive `n`: the last `n` elements, or all of `s` */
  function Suffix<T>(s: seq<T>, n: nat): (r: seq<T>)
    ensures |r| == Min(n, |s|)
    ensures forall i :: 0 <= i < |r| ==> r[i] == s[|s| - |r| + i]
  {
    if n <= |s| then s[|s| - n..] else s
  }

  /** `oid.slice(0, 7)`, the abbreviated object id shared by the server and the hook */
  function Abbr(oid: string): (r: string)
    ensures |r| == Min(7, |oid|)
    ensures StartsWith(oid, r)
  {
    Prefix(oid, 7)
  }

  const HexDigits: string := "0123456789abcdef"

  predicate IsHexDigit(c: char) {
    '0' <= c <= '9' || 'a' <= c <= 'f'
  }

  /** `buffer.toString('hex')`: two lower-case hex digits per byte */
  function Hex(bytes: seq<byte>): (r: string)
    ensures |r| == 2 * |bytes|
    ensures forall i :: 0 <= i < |r| ==> IsHexDigit(r[i])
  {
    if bytes == [] then ""
    else [HexDigits[bytes[0] / 16], HexDigits[bytes[0] % 16]] + Hex(bytes[1..])
  }

  function DigitValue(c: char): (v: nat)
    ensures v < 16
  {
    if c == '0' then 0 else if c == '1' then 1 else if c == '2' then 2
    else if c == '3' then 3 else if c == '4' then 4 else if c == '5' then 5
    else if c == '6' then 6 else if c == '7' then 7 else if c == '8' then 8
    else if c == '9' then 9 else if c == 'a' then 10 else if c == 'b' then 11
    else if c == 'c' then 12 else if c == 'd' then 13 else if c == 'e' then 14
    else 15
  }

  /** Reads back what `Hex` writes. */
  function Unhex(s: string): (r: seq<byte>)
    ensures |r| == |s| / 2
  {
    if |s| < 2 then []
    else [(16 * DigitValue(s[0]) + DigitValue(s[1])) as byte] + Unhex(s[2..])
  }

  lemma {:induction false} UnhexHex(bytes: seq<byte>)
    ensures Unhex(Hex(bytes)) == bytes
  {
    if bytes != [] {
      var b, rest := bytes[0], bytes[1..];
      var x, y := HexDigits[b / 16], HexDigits[b % 16];
      assert Hex(bytes) == [x, y] + Hex(rest);
      UnhexCons(x, y, Hex(rest));
      ByteFromDigits(b);
      UnhexHex(rest);
      assert bytes == [b] + rest;
    }
  }

  lemma {:induction false} UnhexCons(x: char, y: char, rest: string)
    ensures Unhex([x, y] + rest) == [(16 * DigitValue(x) + DigitValue(y)) as byte] + Unhex(rest)
  {
    var s := [x, y] + rest;
    assert s[0] == x && s[1] == y && s[2..] == rest;
  }

  /** The two digits `Hex` writes for a byte read back to that byte. */
  lemma {:induction false} ByteFromDigits(b: byte)
    ensures (16 * DigitValue(HexDigits[b / 16]) + DigitValue(HexDigits[b % 16])) as byte == b
  {
    var hi, lo := (b as int) / 16, (b as int) % 16;
    DigitIsValue(hi);
    DigitIsValue(lo);
    assert 16 * hi + lo == b as int;
  }

  lemma {:induction false} DigitIsValue(v: nat)
    requires v < 16
    ensures DigitValue(HexDigits[v]) == v
  {
  }

  /** `String(n)` for a non-negative integer */
  function Decimal(n: nat): (r: string)
    ensures |r| > 0
    ensures forall i :: 0 <= i < |r| ==> '0' <= r[i] <= '9'
    ensures r[0] == '0' <==> n == 0
  {
    if n < 10 then ["0123456789"[n]] else Decimal(n / 10) + ["0123456789"[n % 10]]
  }

  /** The number a string of decimal digits spells */
  function DecimalValue(s: string): nat
    requires forall i :: 0 <= i < |s| ==> '0' <= s[i] <= '9'
  {
    if s == [] then 0 else 10 * DecimalValue(s[..|s| - 1]) + (s[|s| - 1] as int - '0' as int)
  }

  /** The digits `Decimal` writes spell the number back. */
  lemma {:induction false} DecimalReadsBack(n: nat)
    ensures DecimalValue(Decimal(n)) == n
  {
    if n >= 10 {
      var r := Decimal(n);
      assert r[..|r| - 1] == Decimal(n / 10);
      DecimalReadsBack(n / 10);
    }
  }
}
