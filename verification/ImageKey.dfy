/** The image-cache key (crates/shim/src/instance.rs): 128-bit FNV-1a, printed in hexadecimal. */
module ImageKey {
  import opened Basics

  const MODULUS: nat := 0x1_0000_0000_0000_0000_0000_0000_0000_0000
  const OFFSET: nat := 0x6c62272e07bb0142_62b821756295c58d
  const PRIME: nat := 0x0000000001000000_000000000000013b
  /** The inverse of the prime modulo 2^128; it exists because the prime is odd. */
  const INVERSE: nat := 0xb1041ad2562ff2ff_2ff2ff2ff2ff2ff3

  type u128 = h: int | 0 <= h < MODULUS

  // -------------------------------------------------------------------- exclusive or

  function Xor(x: nat, y: nat): nat {
    if x == 0 && y == 0 then 0 else 2 * Xor(x / 2, y / 2) + (x + y) % 2
  }

  lemma Halves(u: nat, a: nat)
    requires a < 2
    ensures (2 * u + a) / 2 == u && (2 * u + a) % 2 == a
  {
  }

  /** Bit by bit. */
  lemma XorBits(u: nat, v: nat, a: nat, b: nat)
    requires a < 2 && b < 2
    ensures Xor(2 * u + a, 2 * v + b) == 2 * Xor(u, v) + (if a == b then 0 else 1)
  {
    Halves(u, a);
    Halves(v, b);
    var x, y := 2 * u + a, 2 * v + b;
    if a + b == 2 {
      Halves(u + v + 1, 0);
    } else {
      Halves(u + v, a + b);
    }
    assert x + y == 2 * (u + v) + (a + b);
  }

  lemma CancelBits(u: nat, v: nat, a: nat, b: nat)
    requires a < 2 && b < 2 && Xor(Xor(u, v), v) == u && Xor(Xor(u, v), u) == v
    ensures var z := Xor(2 * u + a, 2 * v + b);
            Xor(z, 2 * v + b) == 2 * u + a && Xor(z, 2 * u + a) == 2 * v + b
  {
    var c := if a == b then 0 else 1;
    XorBits(u, v, a, b);
    XorBits(Xor(u, v), v, c, b);
    XorBits(Xor(u, v), u, c, a);
  }

  lemma {:induction false} XorCancels(x: nat, y: nat)
    ensures Xor(Xor(x, y), y) == x && Xor(Xor(x, y), x) == y
  {
    if x != 0 || y != 0 {
      XorCancels(x / 2, y / 2);
      CancelBits(x / 2, y / 2, x % 2, y % 2);
      assert x == 2 * (x / 2) + x % 2 && y == 2 * (y / 2) + y % 2;
    }
  }

  function Pow(b: nat, k: nat): nat {
    if k == 0 then 1 else b * Pow(b, k - 1)
  }

  lemma {:induction false} XorBound(x: nat, y: nat, k: nat)
    requires x < Pow(2, k) && y < Pow(2, k)
    ensures Xor(x, y) < Pow(2, k)
    decreases k
  {
    if k > 0 && (x != 0 || y != 0) {
      XorBound(x / 2, y / 2, k - 1);
    }
  }

  lemma {:induction false} PowPlus(b: nat, j: nat, k: nat)
    ensures Pow(b, j + k) == Pow(b, j) * Pow(b, k)
    decreases j
  {
    if j > 0 {
      PowPlus(b, j - 1, k);
      assert b * (Pow(b, j - 1) * Pow(b, k)) == b * Pow(b, j - 1) * Pow(b, k);
    }
  }

  lemma Pow128()
    ensures Pow(2, 128) == MODULUS && Pow(16, 32) == MODULUS
  {
    assert Pow(2, 8) == 0x100 && Pow(16, 4) == 0x1_0000;
    PowPlus(2, 8, 8);
    PowPlus(2, 16, 16);
    PowPlus(2, 32, 32);
    PowPlus(2, 64, 64);
    PowPlus(16, 4, 4);
    PowPlus(16, 8, 8);
    PowPlus(16, 16, 16);
  }

  // ---------------------------------------------------------------------------- hash

  /** `hash ^= byte` on 128 bits */
  function Mix(h: u128, b: byte): (r: u128) {
    Pow128();
    XorBound(h, b, 128);
    Xor(h, b)
  }

  /** `wrapping_mul` by a constant */
  function Times(h: u128, c: nat): (r: u128) {
    h * c % MODULUS
  }

  function Step(h: u128, b: byte): u128 {
    Times(Mix(h, b), PRIME)
  }

  function Unstep(h: u128, b: byte): u128 {
    Mix(Times(h, INVERSE), b)
  }

  /** The hash state after `s`, started at `h`. */
  function From(h: u128, s: seq<byte>): u128
    decreases |s|
  {
    if s == [] then h else From(Step(h, s[0]), s[1..])
  }

  function Hash(s: seq<byte>): u128 {
    From(OFFSET, s)
  }

  /** The state before `s`, recovered from the state after it. */
  function Back(h: u128, s: seq<byte>): u128 {
    if s == [] then h else Unstep(Back(h, s[1..]), s[0])
  }

  lemma TimesInverse(h: u128)
    ensures Times(Times(h, PRIME), INVERSE) == h && Times(Times(h, INVERSE), PRIME) == h
  {
    var c := PRIME * INVERSE / MODULUS;
    assert PRIME * INVERSE == 1 + MODULUS * c;
    var q := h * PRIME / MODULUS;
    assert h * PRIME == MODULUS * q + Times(h, PRIME);
    ModIs(Times(h, PRIME) * INVERSE, h * c - q * INVERSE, MODULUS, h);
    var p := h * INVERSE / MODULUS;
    assert h * INVERSE == MODULUS * p + Times(h, INVERSE);
    ModIs(Times(h, INVERSE) * PRIME, h * c - p * PRIME, MODULUS, h);
  }

  /** For each byte the step is a bijection on 128-bit states, and its inverse is explicit. */
  lemma StepBijection(h: u128, b: byte)
    ensures Unstep(Step(h, b), b) == h && Step(Unstep(h, b), b) == h
  {
    TimesInverse(Mix(h, b));
    XorCancels(h, b);
    XorCancels(Times(h, INVERSE), b);
    TimesInverse(h);
  }

  /** From one state, different bytes lead to different states. */
  lemma StepSeparates(h: u128, a: byte, b: byte)
    ensures Step(h, a) == Step(h, b) <==> a == b
  {
    TimesInverse(Mix(h, a));
    TimesInverse(Mix(h, b));
    XorCancels(h, a);
    XorCancels(h, b);
  }

  lemma {:induction false} FromBack(h: u128, s: seq<byte>)
    ensures Back(From(h, s), s) == h && From(Back(h, s), s) == h
    decreases |s|
  {
    if s != [] {
      FromBack(Step(h, s[0]), s[1..]);
      StepBijection(h, s[0]);
      FromBack(h, s[1..]);
      StepBijection(Back(h, s[1..]), s[0]);
    }
  }

  lemma {:induction false} FromConcat(h: u128, s: seq<byte>, t: seq<byte>)
    ensures From(h, s + t) == From(From(h, s), t)
    decreases |s|
  {
    if s == [] {
      assert s + t == t;
    } else {
      assert (s + t)[1..] == s[1..] + t;
      FromConcat(Step(h, s[0]), s[1..], t);
    }
  }

  /** Suffix cancellation: a common suffix never creates or hides a collision. */
  lemma SuffixCancels(a: seq<byte>, b: seq<byte>, suffix: seq<byte>)
    ensures Hash(a + suffix) == Hash(b + suffix) <==> Hash(a) == Hash(b)
  {
    FromConcat(OFFSET, a, suffix);
    FromConcat(OFFSET, b, suffix);
    FromBack(Hash(a), suffix);
    FromBack(Hash(b), suffix);
  }

  /** Inputs of the same length that differ in exactly one byte have different hashes. */
  lemma OneByteHash(s: seq<byte>, t: seq<byte>, i: nat)
    requires |s| == |t| && i < |s| && s[i] != t[i]
    requires forall j :: 0 <= j < |s| && j != i ==> s[j] == t[j]
    ensures Hash(s) != Hash(t)
  {
    var front, back := s[..i], s[i + 1..];
    assert s == front + [s[i]] + back && t == front + [t[i]] + back;
    SuffixCancels(front + [s[i]], front + [t[i]], back);
    FromConcat(OFFSET, front, [s[i]]);
    FromConcat(OFFSET, front, [t[i]]);
    OneStep(Hash(front), s[i]);
    OneStep(Hash(front), t[i]);
    StepSeparates(Hash(front), s[i], t[i]);
  }

  lemma OneStep(h: u128, b: byte)
    ensures From(h, [b]) == Step(h, b)
  {
    assert [b][1..] == [];
  }

  // --------------------------------------------------------------------- hexadecimal

  const DIGITS: string := "0123456789abcdef"

  /** `{:x}`: no leading zeros */
  function Hex(n: nat): string {
    if n < 16 then [DIGITS[n]] else Hex(n / 16) + [DIGITS[n % 16]]
  }

  /** `{:032x}` */
  function Hex32(n: nat): string {
    Fill0(Hex(n), 32)
  }

  function Fill0(s: string, width: nat): (r: string)
    decreases width - |s|
  {
    if |s| >= width then s else Fill0("0" + s, width)
  }

  function DigitValue(c: char): nat {
    if '0' <= c <= '9' then c as nat - '0' as nat
    else if 'a' <= c <= 'f' then c as nat - 'a' as nat + 10
    else 0
  }

  function HexValue(s: string): nat {
    if s == "" then 0 else 16 * HexValue(s[..|s| - 1]) + DigitValue(s[|s| - 1])
  }

  predicate AllDigits(s: string) {
    forall c :: c in s ==> c in DIGITS
  }

  lemma DigitRoundTrip(n: nat)
    requires n < 16
    ensures DigitValue(DIGITS[n]) == n
  {
  }

  lemma {:induction false} HexRoundTrip(n: nat, k: nat)
    requires 0 < k && n < Pow(16, k)
    ensures HexValue(Hex(n)) == n && 0 < |Hex(n)| <= k && AllDigits(Hex(n))
    decreases n
  {
    DigitRoundTrip(n % 16);
    if n < 16 {
      assert Hex(n)[..0] == "";
    } else {
      assert Pow(16, 1) == 16;
      HexRoundTrip(n / 16, k - 1);
      assert Hex(n)[..|Hex(n)| - 1] == Hex(n / 16);
    }
  }

  lemma {:induction false} LeadingZero(s: string)
    ensures HexValue("0" + s) == HexValue(s)
    decreases |s|
  {
    if s == "" {
      assert ("0" + s)[..0] == "";
    } else {
      assert ("0" + s)[..|s|] == "0" + s[..|s| - 1];
      LeadingZero(s[..|s| - 1]);
    }
  }

  lemma {:induction false} Fill0Keeps(s: string, width: nat)
    requires |s| <= width && AllDigits(s)
    ensures HexValue(Fill0(s, width)) == HexValue(s) && |Fill0(s, width)| == width && AllDigits(Fill0(s, width))
    decreases width - |s|
  {
    if |s| < width {
      LeadingZero(s);
      assert DIGITS[0] == '0';
      Fill0Keeps("0" + s, width);
    }
  }

  /** The key is 32 lower-case hexadecimal digits from which the hash can be read back. */
  lemma Hex32RoundTrip(h: u128)
    ensures |Hex32(h)| == 32 && AllDigits(Hex32(h)) && HexValue(Hex32(h)) == h
  {
    Pow128();
    HexRoundTrip(h, 32);
    Fill0Keeps(Hex(h), 32);
  }

  // ----------------------------------------------------------------------------- key

  function Key(s: seq<byte>): string {
    Hex32(Hash(s))
  }

  /** Keys collide exactly where hashes do. */
  lemma KeyIsHash(s: seq<byte>, t: seq<byte>)
    ensures Key(s) == Key(t) <==> Hash(s) == Hash(t)
  {
    Hex32RoundTrip(Hash(s));
    Hex32RoundTrip(Hash(t));
  }

  lemma KeySuffixCancels(a: seq<byte>, b: seq<byte>, suffix: seq<byte>)
    ensures Key(a + suffix) == Key(b + suffix) <==> Key(a) == Key(b)
  {
    SuffixCancels(a, b, suffix);
    KeyIsHash(a, b);
    KeyIsHash(a + suffix, b + suffix);
  }

  lemma OneByteKey(s: seq<byte>, t: seq<byte>, i: nat)
    requires |s| == |t| && i < |s| && s[i] != t[i]
    requires forall j :: 0 <= j < |s| && j != i ==> s[j] == t[j]
    ensures Key(s) != Key(t)
  {
    OneByteHash(s, t, i);
    KeyIsHash(s, t);
  }

  /** `stable_hash_hex` */
  method StableHashHex(input: seq<byte>) returns (key: string)
    ensures key == Key(input)
  {
    var hash: u128 := OFFSET;
    for i := 0 to |input|
      invariant hash == Hash(input[..i])
    {
      assert input[..i + 1] == input[..i] + [input[i]];
      FromConcat(OFFSET, input[..i], [input[i]]);
      OneStep(hash, input[i]);
      hash := Mix(hash, input[i]);
      hash := Times(hash, PRIME);
    }
    assert input[..|input|] == input;
    key := Hex32(hash);
  }

  // ------------------------------------------------------------------- known keys

  lemma {:induction false} XorZero(x: nat)
    ensures Xor(x, 0) == x
  {
    if x != 0 {
      XorZero(x / 2);
    }
  }

  /** One more bit on each side. */
  lemma XorNext(x: nat, y: nat, z: nat, a: nat, b: nat, x': nat, y': nat, z': nat)
    requires Xor(x, y) == z && a < 2 && b < 2 && x' == 2 * x + a && y' == 2 * y + b
    requires z' == 2 * z + if a == b then 0 else 1
    ensures Xor(x', y') == z'
  {
    XorBits(x, y, a, b);
  }

  lemma XorAHigh(u: nat, x: nat)
    requires x == 8 * u
    ensures Xor(x, 6) == 8 * u + 6
  {
    XorZero(u);
    XorNext(u, 0, u, 0, 1, 2 * u, 1, 2 * u + 1);
    XorNext(2 * u, 1, 2 * u + 1, 0, 1, 4 * u, 3, 4 * u + 3);
    XorNext(4 * u, 3, 4 * u + 3, 0, 0, x, 6, 8 * u + 6);
  }

  lemma XorALow(u: nat, x: nat)
    requires x == 128 * u + 13 && Xor(8 * u, 6) == 8 * u + 6
    ensures Xor(x, 97) == 128 * u + 108
  {
    XorNext(8 * u, 6, 8 * u + 6, 1, 0, 16 * u + 1, 12, 16 * u + 13);
    XorNext(16 * u + 1, 12, 16 * u + 13, 1, 0, 32 * u + 3, 24, 32 * u + 27);
    XorNext(32 * u + 3, 24, 32 * u + 27, 0, 0, 64 * u + 6, 48, 64 * u + 54);
    XorNext(64 * u + 6, 48, 64 * u + 54, 1, 1, x, 97, 128 * u + 108);
  }

  /** The low seven bits 0001101 changed by 1100001 are 1101100. */
  lemma XorA(x: nat, u: nat)
    requires x == 128 * u + 13
    ensures Xor(x, 97) == 128 * u + 108
  {
    XorAHigh(u, 8 * u);
    XorALow(u, x);
  }

  lemma TimesA(h: u128)
    requires h == 0x6c62272e07bb0142_62b821756295c5ec
    ensures Times(h, PRIME) == 0xd228cb696f1a8caf_78912b704e4a8964
  {
    ModIs(h * PRIME, 0x6c62272e07bb014262b8a6, MODULUS, 0xd228cb696f1a8caf_78912b704e4a8964);
  }

  lemma StepA(h: u128, b: byte)
    requires h == OFFSET && b == 97
    ensures Step(h, b) == 0xd228cb696f1a8caf_78912b704e4a8964
  {
    XorA(h, h / 128);
    TimesA(Mix(h, b));
  }

  /** The published values of the hash for the empty input and for "a". */
  lemma KnownHashes(a: seq<byte>)
    requires a == [97]
    ensures Hash([]) == 0x6c62272e07bb0142_62b821756295c58d
    ensures Hash(a) == 0xd228cb696f1a8caf_78912b704e4a8964
  {
    StepA(OFFSET, a[0]);
    OneStep(OFFSET, a[0]);
    assert a == [a[0]];
  }

  lemma {:induction false} HexUnique(s: string, t: string)
    requires |s| == |t| && AllDigits(s) && AllDigits(t) && HexValue(s) == HexValue(t)
    ensures s == t
  {
    if s != "" {
      var n := |s| - 1;
      DigitUnique(s[n], t[n]);
      HexUnique(s[..n], t[..n]);
      assert s == s[..n] + [s[n]] && t == t[..n] + [t[n]];
    }
  }

  lemma DigitUnique(c: char, d: char)
    requires c in DIGITS && d in DIGITS
    ensures DigitValue(c) < 16 && DigitValue(d) < 16 && (DigitValue(c) == DigitValue(d) ==> c == d)
  {
    var i :| 0 <= i < |DIGITS| && DIGITS[i] == c;
    var j :| 0 <= j < |DIGITS| && DIGITS[j] == d;
    DigitRoundTrip(i);
    DigitRoundTrip(j);
  }

  lemma HexFour(s: string, a: char, b: char, c: char, d: char)
    ensures HexValue(s + [a, b, c, d])
         == 65536 * HexValue(s) + 4096 * DigitValue(a) + 256 * DigitValue(b) + 16 * DigitValue(c) + DigitValue(d)
  {
    HexSnoc(s, a);
    HexSnoc(s + [a], b);
    HexSnoc(s + [a] + [b], c);
    HexSnoc(s + [a] + [b] + [c], d);
    assert s + [a] + [b] + [c] + [d] == s + [a, b, c, d];
  }

  lemma HexSnoc(s: string, c: char)
    ensures HexValue(s + [c]) == 16 * HexValue(s) + DigitValue(c)
  {
    assert (s + [c])[..|s|] == s;
  }

  lemma FirstHalf(half: string)
    requires half == "6c62272e07bb0142"
    ensures HexValue(half) == 0x6c62272e07bb0142
  {
    var s1 := "" + ['6', 'c', '6', '2'];
    var s2 := s1 + ['2', '7', '2', 'e'];
    var s3 := s2 + ['0', '7', 'b', 'b'];
    HexFour("", '6', 'c', '6', '2');
    HexFour(s1, '2', '7', '2', 'e');
    HexFour(s2, '0', '7', 'b', 'b');
    HexFour(s3, '0', '1', '4', '2');
    assert half == s3 + ['0', '1', '4', '2'];
  }

  lemma SecondHalf(half: string, text: string)
    requires text == half + "62b821756295c58d" && HexValue(half) == 0x6c62272e07bb0142
    ensures HexValue(text) == OFFSET
  {
    var s1 := half + ['6', '2', 'b', '8'];
    var s2 := s1 + ['2', '1', '7', '5'];
    var s3 := s2 + ['6', '2', '9', '5'];
    HexFour(half, '6', '2', 'b', '8');
    HexFour(s1, '2', '1', '7', '5');
    HexFour(s2, '6', '2', '9', '5');
    HexFour(s3, 'c', '5', '8', 'd');
    assert text == s3 + ['c', '5', '8', 'd'];
  }

  lemma OffsetText(text: string)
    requires text == "6c62272e07bb014262b821756295c58d"
    ensures HexValue(text) == OFFSET
  {
    var half := text[..16];
    assert half == "6c62272e07bb0142" && text == half + "62b821756295c58d";
    FirstHalf(half);
    SecondHalf(half, text);
  }

  /** The key of the empty input. */
  lemma KnownKey(text: string)
    requires text == "6c62272e07bb014262b821756295c58d"
    ensures Key([]) == text
  {
    OffsetText(text);
    Hex32RoundTrip(OFFSET);
    forall c | c in text ensures c in DIGITS {
      TextDigits(c);
    }
    HexUnique(Key([]), text);
  }

  lemma TextDigits(c: char)
    requires '0' <= c <= '9' || 'a' <= c <= 'f'
    ensures c in DIGITS
  {
    if c <= '9' {
      assert DIGITS[c as int - '0' as int] == c;
    } else {
      assert DIGITS[c as int - 'a' as int + 10] == c;
    }
  }
}
