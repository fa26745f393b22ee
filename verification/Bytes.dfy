/** Fixed-width little-endian integers, as both binary formats of the exchange use them. */
module Bytes {

  type byte = x: int | 0 <= x < 256

  function Pow256(k: nat): (r: int)
    ensures r > 0
  {
    if k == 0 then 1 else 256 * Pow256(k - 1)
  }

  /** The low `k` bytes of `n`, least significant first. */
  function Little(n: nat, k: nat): (s: seq<byte>)
    ensures |s| == k
  {
    if k == 0 then [] else [n % 256] + Little(n / 256, k - 1)
  }

  function Unlittle(s: seq<byte>): (n: nat)
  {
    if s == [] then 0 else s[0] + 256 * Unlittle(s[1..])
  }

  lemma {:induction false} UnlittleBound(s: seq<byte>)
    ensures Unlittle(s) < Pow256(|s|)
  {
    if s != [] { UnlittleBound(s[1..]); }
  }

  lemma {:induction false} UnlittleOfLittle(n: nat, k: nat)
    requires n < Pow256(k)
    ensures Unlittle(Little(n, k)) == n
  {
    if k > 0 {
      UnlittleOfLittle(n / 256, k - 1);
      assert Little(n, k)[1..] == Little(n / 256, k - 1);
    }
  }

  lemma {:induction false} LittleOfUnlittle(s: seq<byte>)
    ensures Little(Unlittle(s), |s|) == s
  {
    if s != [] {
      LittleOfUnlittle(s[1..]);
      LowByte(s[0], Unlittle(s[1..]));
      assert s == [s[0]] + s[1..];
    }
  }

  lemma LowByte(b: byte, n: nat)
    ensures (b + 256 * n) % 256 == b && (b + 256 * n) / 256 == n
  {
  }

  /** The unsigned bit pattern of a `k`-byte two's complement integer. */
  function Raw(v: int, k: nat): nat
    requires -Pow256(k) <= 2 * v < Pow256(k)
  {
    if v < 0 then v + Pow256(k) else v
  }

  /** The signed value of a `k`-byte pattern. */
  function Signed(raw: nat, k: nat): int
  {
    if 2 * raw >= Pow256(k) then raw - Pow256(k) else raw
  }

  lemma SignedOfRaw(v: int, k: nat)
    requires -Pow256(k) <= 2 * v < Pow256(k)
    ensures Raw(v, k) < Pow256(k) && Signed(Raw(v, k), k) == v
  {
  }

  lemma RawOfSigned(raw: nat, k: nat)
    requires raw < Pow256(k)
    ensures -Pow256(k) <= 2 * Signed(raw, k) < Pow256(k) && Raw(Signed(raw, k), k) == raw
  {
  }

  /** The order in which a map keeps byte strings. */
  predicate Less(a: seq<byte>, b: seq<byte>)
  {
    b != [] && (a == [] || a[0] < b[0] || (a[0] == b[0] && Less(a[1..], b[1..])))
  }

  lemma {:induction false} LessIsStrict(a: seq<byte>, b: seq<byte>)
    ensures !(Less(a, b) && Less(b, a)) && !Less(a, a)
    ensures a == b || Less(a, b) || Less(b, a)
  {
    if a != [] { LessIsStrict(a[1..], a[1..]); }
    if a != [] && b != [] && a[0] == b[0] {
      LessIsStrict(a[1..], b[1..]);
      assert a == [a[0]] + a[1..] && b == [b[0]] + b[1..];
    }
  }

  lemma {:induction false} LessIsTransitive(a: seq<byte>, b: seq<byte>, c: seq<byte>)
    requires Less(a, b) && Less(b, c)
    ensures Less(a, c)
  {
    if a != [] && a[0] == b[0] && b[0] == c[0] { LessIsTransitive(a[1..], b[1..], c[1..]); }
  }
}
