/** Native integer kinds as (width, signedness), C's silent wrap-around, and the little-endian byte image. */
module IntKinds {

  type PosNat = n: nat | 1 <= n witness 1

  /** A native integer representation: its width in bits and whether it is signed. */
  datatype IntKind = IntKind(bits: PosNat, signed: bool)

  function Pow2(n: nat): (r: nat)
    ensures 1 <= r
  {
    if n == 0 then 1 else 2 * Pow2(n - 1)
  }

  /** The number of distinct values of the kind. */
  function Modulus(k: IntKind): (m: nat)
    ensures 2 <= m
  {
    Pow2(k.bits)
  }

  /** Half the modulus: the magnitude of the most negative signed value. */
  function Half(k: IntKind): (h: nat)
    ensures 1 <= h && Modulus(k) == 2 * h
  {
    Pow2(k.bits - 1)
  }

  function MinOf(k: IntKind): int
  {
    if k.signed then -(Half(k) as int) else 0
  }

  function MaxOf(k: IntKind): int
  {
    if k.signed then Half(k) - 1 else Modulus(k) - 1
  }

  /** `x` is representable in the kind. */
  predicate InRange(k: IntKind, x: int)
  {
    MinOf(k) <= x <= MaxOf(k)
  }

  /** What a ctypes integer object built from `x` holds: `x` reduced into the kind's range, as C does. */
  function Wrap(k: IntKind, x: int): (r: int)
    ensures InRange(k, r)
  {
    if k.signed then (x + Half(k)) % Modulus(k) - Half(k) else x % Modulus(k)
  }

  lemma ModOfSmall(a: int, m: int)
    requires 0 <= a < m
    ensures a % m == a
  {
  }

  lemma ModShift(a: int, m: int, q: int)
    requires 0 < m
    ensures (a + q * m) % m == a % m
  {
    var r := a % m;
    var d := a / m;
    assert a + q * m == (d + q) * m + r;
    ModUnique(a + q * m, m, d + q, r);
  }

  lemma ModUnique(a: int, m: int, d: int, r: int)
    requires 0 < m && 0 <= r < m && a == d * m + r
    ensures a % m == r && a / m == d
  {
    var d', r' := a / m, a % m;
    DivMod(a, m);
    if d' > d {
      MulAtLeast(d' - d, m);
      Distribute(d', d, m);
    } else if d' < d {
      MulAtLeast(d - d', m);
      Distribute(d, d', m);
    }
  }

  lemma DivMod(a: int, m: int)
    requires 0 < m
    ensures a == (a / m) * m + a % m && 0 <= a % m < m
  {
  }

  lemma MulAtLeast(c: int, m: int)
    requires 1 <= c && 0 < m
    ensures m <= c * m
  {
  }

  lemma Distribute(x: int, y: int, m: int)
    ensures x * m - y * m == (x - y) * m
  {
  }

  lemma {:induction false} Pow2Monotone(a: nat, b: nat)
    requires a <= b
    ensures Pow2(a) <= Pow2(b)
  {
    if a < b {
      Pow2Monotone(a, b - 1);
    }
  }

  /** A value representable in a narrower kind of the same signedness is representable in a wider one. */
  lemma NarrowerFits(narrow: IntKind, wide: IntKind, x: int)
    requires narrow.signed == wide.signed && narrow.bits <= wide.bits && InRange(narrow, x)
    ensures InRange(wide, x)
  {
    Pow2Monotone(narrow.bits - 1, wide.bits - 1);
  }

  /** The range check of the integer conversion: wrapping leaves `x` alone exactly when it is representable. */
  lemma WrapFixesExactlyInRange(k: IntKind, x: int)
    ensures Wrap(k, x) == x <==> InRange(k, x)
  {
    if InRange(k, x) {
      if k.signed {
        ModOfSmall(x + Half(k), Modulus(k));
      } else {
        ModOfSmall(x, Modulus(k));
      }
    }
  }

  /** Adding a multiple of the modulus does not change the wrapped value. */
  lemma WrapPeriodic(k: IntKind, x: int, q: int)
    ensures Wrap(k, x + q * Modulus(k)) == Wrap(k, x)
  {
    if k.signed {
      ModShift(x + Half(k), Modulus(k), q);
      assert x + q * Modulus(k) + Half(k) == (x + Half(k)) + q * Modulus(k);
    } else {
      ModShift(x, Modulus(k), q);
    }
  }

  /** The wrapped value differs from `x` by a multiple of the modulus (it is `x` modulo the width). */
  lemma WrapCongruent(k: IntKind, x: int)
    ensures exists q :: x == Wrap(k, x) + q * Modulus(k)
  {
    var m := Modulus(k);
    if k.signed {
      var a := x + Half(k);
      assert a == (a / m) * m + a % m;
      assert x == Wrap(k, x) + (a / m) * m;
    } else {
      assert x == (x / m) * m + x % m;
      assert x == Wrap(k, x) + (x / m) * m;
    }
  }

  /** Wrapping twice is wrapping once. */
  lemma WrapIdempotent(k: IntKind, x: int)
    ensures Wrap(k, Wrap(k, x)) == Wrap(k, x)
  {
    WrapFixesExactlyInRange(k, Wrap(k, x));
  }

  /**
   * The backend decides signedness once per type by building the ctypes object for -1 and
   * checking that it still reads -1: that probe is true exactly for the signed kinds.
   */
  lemma SignedByProbe(k: IntKind)
    ensures (Wrap(k, -1) == -1) <==> k.signed
  {
    WrapFixesExactlyInRange(k, -1);
  }

  // ---- byte images (little-endian) ----

  /** The value of the unsigned bit pattern of `x` in the kind. */
  function Unsigned(k: IntKind, x: int): (u: nat)
    ensures u < Modulus(k)
  {
    x % Modulus(k)
  }

  /** The `n` little-endian bytes of `u` (taken modulo 256^n). */
  function LittleEndian(u: nat, n: nat): (bs: seq<char>)
    ensures |bs| == n
    ensures forall i :: 0 <= i < n ==> bs[i] as int < 256
  {
    if n == 0 then [] else [(u % 256) as char] + LittleEndian(u / 256, n - 1)
  }

  /** The unsigned number whose little-endian bytes are `bs`. */
  function FromLittleEndian(bs: seq<char>): nat
  {
    if bs == [] then 0 else bs[0] as int + 256 * FromLittleEndian(bs[1..])
  }

  function Pow256(n: nat): (r: nat)
    ensures 1 <= r
  {
    if n == 0 then 1 else 256 * Pow256(n - 1)
  }

  /** Reading back the `n` bytes of a number below 256^n gives the number. */
  lemma {:induction false} LittleEndianRoundTrip(u: nat, n: nat)
    requires u < Pow256(n)
    ensures FromLittleEndian(LittleEndian(u, n)) == u
  {
    if n > 0 {
      var bs := LittleEndian(u, n);
      assert bs[1..] == LittleEndian(u / 256, n - 1);
      assert u / 256 < Pow256(n - 1) by {
        ModUnique(u, 256, u / 256, u % 256);
      }
      LittleEndianRoundTrip(u / 256, n - 1);
      assert u == 256 * (u / 256) + u % 256;
    }
  }

  lemma {:induction false} Pow2Bytes(n: nat)
    ensures Pow2(8 * n) == Pow256(n)
  {
    if n > 0 {
      Pow2Bytes(n - 1);
      Pow2Add(8, 8 * (n - 1));
      assert 8 * n == 8 + 8 * (n - 1);
    }
  }

  lemma {:induction false} Pow2Add(a: nat, b: nat)
    ensures Pow2(a + b) == Pow2(a) * Pow2(b)
  {
    if a > 0 {
      Pow2Add(a - 1, b);
      assert a + b - 1 == (a - 1) + b;
    }
  }

  /** The `bytes`-byte image of an integer of a kind that is `bytes` bytes wide. */
  function Encode(k: IntKind, bytes: nat, x: int): (bs: seq<char>)
    ensures |bs| == bytes
  {
    LittleEndian(Unsigned(k, x), bytes)
  }

  /** The integer a kind reads from its byte image. */
  function Decode(k: IntKind, bs: seq<char>): int
  {
    Wrap(k, FromLittleEndian(bs))
  }

  /** Storing a representable integer as bytes and reading it back gives the integer. */
  lemma EncodeDecode(k: IntKind, bytes: nat, x: int)
    requires k.bits == 8 * bytes && InRange(k, x)
    ensures Decode(k, Encode(k, bytes, x)) == x
  {
    var m := Modulus(k);
    var u := Unsigned(k, x);
    Pow2Bytes(bytes);
    assert u < Pow256(bytes);
    LittleEndianRoundTrip(u, bytes);
    assert Decode(k, Encode(k, bytes, x)) == Wrap(k, u);
    DivMod(x, m);
    WrapPeriodic(k, u, x / m);
    assert Wrap(k, u) == Wrap(k, x);
    WrapFixesExactlyInRange(k, x);
  }
}
