/** `simpleHash` (src/Scope.js): a 31-multiplier rolling hash over the
    UTF-16 code units of a string, computed in JavaScript's 32-bit signed
    integer arithmetic and printed unsigned in base 36. */
module Hash {

  const Modulus: nat := 0x1_0000_0000

  /** The UTF-16 encoding of one character: one code unit below U+10000,
      otherwise a surrogate pair. */
  function Utf16Char(c: char): (u: seq<nat>)
    ensures 1 <= |u| <= 2 && forall k :: 0 <= k < |u| ==> u[k] < 0x1_0000
  {
    var v := c as int;
    if v < 0x1_0000 then [v]
    else [0xD800 + (v - 0x1_0000) / 0x400, 0xDC00 + (v - 0x1_0000) % 0x400]
  }

  /** The code units `charCodeAt` walks over. */
  function Utf16(s: string): seq<nat> {
    if s == [] then [] else Utf16(s[..|s| - 1]) + Utf16Char(s[|s| - 1])
  }

  /** The unsigned value of the hash of a run of code units: the fold of
      `h := (31 * h + unit) mod 2^32` from `h = 0`. */
  function HashCode(units: seq<nat>): (h: nat)
    ensures h < Modulus
  {
    if units == [] then 0
    else (31 * HashCode(units[..|units| - 1]) + units[|units| - 1]) % Modulus
  }

  // ---- JavaScript's 32-bit integer conversions ----

  predicate IsInt32(x: int) {
    -0x8000_0000 <= x < 0x8000_0000
  }

  /** ECMAScript ToInt32: wrap into the signed 32-bit range. */
  function ToInt32(x: int): (r: int)
    ensures IsInt32(r) && r % Modulus == x % Modulus
  {
    var m := x % Modulus;
    if m >= 0x8000_0000 then m - Modulus else m
  }

  /** ECMAScript ToUint32, the conversion `new Uint32Array([hash])[0]` performs. */
  function ToUint32(x: int): (r: nat)
    ensures r < Modulus && r % Modulus == x % Modulus
  {
    x % Modulus
  }

  /** One iteration of the loop body as JavaScript evaluates it:
      `hash << 5` is ToInt32(ToInt32(hash) * 32), the subtraction and the
      addition are exact, and `hash &= hash` is ToInt32 again. */
  function JsStep(hash: int, unit: nat): int {
    ToInt32(ToInt32(hash * 32) - hash + unit)
  }

  lemma ModShift(a: int, k: int)
    ensures (a + k * Modulus) % Modulus == a % Modulus
  {
  }

  /** The signed loop step agrees, modulo 2^32, with the unsigned fold step. */
  lemma JsStepAgrees(hash: int, unit: nat)
    ensures IsInt32(JsStep(hash, unit))
    ensures JsStep(hash, unit) % Modulus == (31 * (hash % Modulus) + unit) % Modulus
  {
    var a := ToInt32(hash * 32);
    assert a == hash * 32 + (a - hash * 32);
    assert (a - hash * 32) % Modulus == 0;
    var k := (a - hash * 32) / Modulus;
    assert a - hash + unit == (31 * hash + unit) + k * Modulus;
    ModShift(31 * hash + unit, k);
    var q := hash / Modulus;
    assert 31 * hash + unit == (31 * (hash % Modulus) + unit) + (31 * q) * Modulus;
    ModShift(31 * (hash % Modulus) + unit, 31 * q);
  }

  // ---- Number.prototype.toString(36) on a non-negative integer ----

  function Digit(d: nat): (c: char)
    requires d < 36
  {
    if d < 10 then ('0' as int + d) as char else ('a' as int + d - 10) as char
  }

  predicate IsDigit36(c: char) {
    ('0' <= c <= '9') || ('a' <= c <= 'z')
  }

  function DigitValue(c: char): nat {
    if '0' <= c <= '9' then c as int - '0' as int
    else if 'a' <= c <= 'z' then c as int - 'a' as int + 10
    else 0
  }

  /** Base-36 rendering with lower-case digits, most significant first,
      without leading zeros. */
  function Base36(n: nat): (s: string)
    ensures |s| >= 1
    ensures forall k :: 0 <= k < |s| ==> IsDigit36(s[k])
    ensures |s| > 1 ==> s[0] != '0'
    decreases n
  {
    if n < 36 then [Digit(n)] else Base36(n / 36) + [Digit(n % 36)]
  }

  /** Reads a base-36 numeral back. */
  function ParseBase36(s: string): nat {
    if s == [] then 0 else ParseBase36(s[..|s| - 1]) * 36 + DigitValue(s[|s| - 1])
  }

  /** The printer is inverted by the reader, so distinct hash values give
      distinct ids. */
  lemma {:induction false} Base36RoundTrip(n: nat)
    ensures ParseBase36(Base36(n)) == n
    decreases n
  {
    if n >= 36 {
      Base36RoundTrip(n / 36);
      var s := Base36(n);
      assert s[..|s| - 1] == Base36(n / 36);
    }
  }

  lemma Base36Injective(m: nat, n: nat)
    ensures Base36(m) == Base36(n) <==> m == n
  {
    if Base36(m) == Base36(n) {
      Base36RoundTrip(m);
      Base36RoundTrip(n);
    }
  }

  /** A value below 36^k needs at most k digits. */
  lemma {:induction false} Base36Length(n: nat, k: nat, bound: nat)
    requires k >= 1 && bound == Power36(k) && n < bound
    ensures |Base36(n)| <= k
    decreases k
  {
    if n >= 36 {
      assert k > 1;
      Base36Length(n / 36, k - 1, Power36(k - 1));
    }
  }

  function Power36(k: nat): nat {
    if k == 0 then 1 else 36 * Power36(k - 1)
  }

  // ---- simpleHash ----

  /** What `simpleHash(s)` returns. */
  function HashString(s: string): string {
    Base36(HashCode(Utf16(s)))
  }

  /** `simpleHash` (src/Scope.js:171-179): the loop runs JavaScript's signed
      32-bit step over every code unit; the unsigned result is printed in
      base 36. */
  method SimpleHash(str: string) returns (r: string)
    ensures r == HashString(str)
  {
    var units := Utf16(str);
    var hash := 0;
    var i := 0;
    while i < |units|
      invariant 0 <= i <= |units|
      invariant IsInt32(hash)
      invariant hash % Modulus == HashCode(units[..i])
    {
      var code := units[i];
      JsStepAgrees(hash, code);
      assert units[..i + 1][..i] == units[..i];
      hash := JsStep(hash, code);
      i := i + 1;
    }
    assert units[..i] == units;
    r := Base36(ToUint32(hash));
  }

  /** The hash of the empty string is "0". */
  lemma HashOfEmpty()
    ensures HashString("") == "0"
  {
    assert Utf16("") == [];
  }

  /** A hash is a base-36 numeral of one to seven digits whose value is
      below 2^32: the unsigned 32-bit value it was printed from. */
  lemma HashShape(s: string)
    ensures 1 <= |HashString(s)| <= 7
    ensures forall k :: 0 <= k < |HashString(s)| ==> IsDigit36(HashString(s)[k])
    ensures ParseBase36(HashString(s)) == HashCode(Utf16(s)) < Modulus
  {
    Base36RoundTrip(HashCode(Utf16(s)));
    assert Power36(7) == 78364164096;
    Base36Length(HashCode(Utf16(s)), 7, Power36(7));
  }
}
