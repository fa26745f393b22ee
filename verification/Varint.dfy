/** Variable-length integers: the hologram packet's writer and the log reader's reader. */
module Varint {
  import opened Domain
  import opened Bytes

  function Pow128(k: nat): (r: int)
    ensures r > 0
  {
    if k == 0 then 1 else 128 * Pow128(k - 1)
  }

  /** `appendVarUint`: seven bits at a time, the high bit set on all but the last byte. */
  function Var(v: nat): (s: seq<byte>)
    ensures |s| >= 1
  {
    if v < 128 then [v] else [v % 128 + 128] + Var(v / 128)
  }

  /** `readVarUint32` from its `k`-th byte on; the fifth byte may carry four bits only. */
  function ReadVar(s: seq<byte>, k: nat): (r: Option<(nat, seq<byte>)>)
    ensures r.Some? ==> |r.value.1| < |s|
    decreases 5 - k
  {
    if k >= 5 || s == [] || (k == 4 && s[0] >= 16) then None
    else if s[0] < 128 then Some((s[0] * Pow128(k), s[1..]))
    else
      match ReadVar(s[1..], k + 1)
      case None => None
      case Some((v, rest)) => Some(((s[0] - 128) * Pow128(k) + v, rest))
  }

  /** What is left of the 32-bit range from the `k`-th byte on. */
  function Room(k: nat): int
    decreases if k >= 4 then 0 else 4 - k
  {
    if k >= 4 then 16 else 128 * Room(k + 1)
  }

  /** From its `k`-th byte on the reader gives back exactly what fits and rejects what does not. */
  lemma {:induction false} ReadVarFrom(v: nat, k: nat, rest: seq<byte>)
    requires k <= 4
    ensures ReadVar(Var(v) + rest, k) == if v < Room(k) then Some((v * Pow128(k), rest)) else None
    decreases 5 - k
  {
    var s := Var(v) + rest;
    if v < 128 {
      assert s[1..] == rest;
    } else if k < 4 {
      assert s[0] == v % 128 + 128 && s[1..] == Var(v / 128) + rest;
      ReadVarFrom(v / 128, k + 1, rest);
      Recombine(v, k);
    }
  }

  lemma Recombine(v: nat, k: nat)
    ensures (v % 128) * Pow128(k) + (v / 128) * Pow128(k + 1) == v * Pow128(k)
  {
    var q, r := v / 128, v % 128;
    assert v == 128 * q + r;
    assert q * (128 * Pow128(k)) == (128 * q) * Pow128(k);
    assert r * Pow128(k) + (128 * q) * Pow128(k) == (r + 128 * q) * Pow128(k);
  }

  /** The reader inverts the writer on every 32-bit value and rejects every larger one. */
  lemma ReadVarOfVar(v: nat, rest: seq<byte>)
    ensures ReadVar(Var(v) + rest, 0) == if v < 0x1_0000_0000 then Some((v, rest)) else None
  {
    ReadVarFrom(v, 0, rest);
    assert Room(0) == 0x1_0000_0000 && Pow128(0) == 1 by {
      assert Room(4) == 16 && Room(3) == 128 * 16 && Room(2) == 128 * 128 * 16 && Room(1) == 128 * 128 * 128 * 16;
    }
  }

  method AppendVarUint(payload: seq<byte>, value: nat) returns (r: seq<byte>)
    ensures r == payload + Var(value)
  {
    r := payload;
    var v := value;
    var more := true;
    while more
      invariant more ==> r + Var(v) == payload + Var(value)
      invariant !more ==> r == payload + Var(value)
      decreases more, v
    {
      var b := v % 128;
      ghost var before := v;
      v := v / 128;
      if v != 0 { b := b + 128; }
      assert Var(before) == if v != 0 then [b] + Var(v) else [b];
      r := r + [b];
      more := v != 0;
    }
  }

  lemma FirstWeight()
    ensures Pow128(0) == 1
  {
  }

  lemma NextWeight(k: nat)
    ensures Pow128(k + 1) == 128 * Pow128(k)
  {
  }

  method ReadVarUint32(bytes: seq<byte>, start: nat) returns (r: Option<nat>, position: nat)
    requires start <= |bytes|
    ensures start <= position <= |bytes|
    ensures match ReadVar(bytes[start..], 0)
            case None => r == None
            case Some((v, rest)) => r == Some(v) && rest == bytes[position..]
  {
    hide Pow128; hide ReadVar;
    position := start;
    FirstWeight();
    var result: nat, k: nat, weight: int := 0, 0, 1;
    while k < 5
      invariant k <= 5 && start <= position <= |bytes| && weight == Pow128(k)
      invariant match ReadVar(bytes[position..], k)
                case None => ReadVar(bytes[start..], 0) == None
                case Some((v, rest)) => ReadVar(bytes[start..], 0) == Some((result + v, rest))
    {
      ReadVarStep(bytes, position, k);
      if position >= |bytes| { return None, position; }
      NextWeight(k);
      var b: int := bytes[position];
      position := position + 1;
      if k == 4 && b >= 16 { return None, position; }
      if b < 128 { return Some(result + b * weight), position; }
      result, weight, k := result + (b - 128) * weight, weight * 128, k + 1;
    }
    ReadVarEnds(bytes[position..], k);
    r := None;
  }

  lemma ReadVarEnds(s: seq<byte>, k: nat)
    requires k >= 5
    ensures ReadVar(s, k) == None
  {
  }

  lemma ReadVarStep(bytes: seq<byte>, position: nat, k: nat)
    requires position <= |bytes| && k < 5
    ensures ReadVar(bytes[position..], k)
            == if position == |bytes| || (k == 4 && bytes[position] >= 16) then None
               else if bytes[position] < 128 then Some(((bytes[position] as int) * Pow128(k), bytes[position + 1..]))
               else match ReadVar(bytes[position + 1..], k + 1)
                    case None => None
                    case Some((v, rest)) => Some(((bytes[position] as int - 128) * Pow128(k) + v, rest))
  {
    if position < |bytes| { assert bytes[position..][1..] == bytes[position + 1..]; }
  }
}
