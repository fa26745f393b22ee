/**
 The formats themselves, position by position: what a writer and a reader could agree on and still
 both get wrong. Digits, groups and bytes are stated by division, limits and codes by their numbers.
 */
module Formats {
  import opened Domain
  import opened Bytes
  import Decimal
  import Varint
  import opened Nbt
  import X = Exchange
  import L = LevelDb
  import P = LevelDbProofs

  /** A number without its lowest `i` digits in a base; below zero it rounds down, as a shift does. */
  function Shift(v: int, base: nat, i: nat): int
    requires base > 0
    decreases i
  {
    if i == 0 then v else Shift(v / base, base, i - 1)
  }

  // ----- decimal text -----

  /** Printed digits are those of base ten, most significant first, without a leading zero. */
  lemma {:induction false} DigitsAreDecimal(n: nat)
    ensures var s := Decimal.Digits(n);
            && Shift(n, 10, |s|) == 0 && (1 < |s| ==> Shift(n, 10, |s| - 1) != 0)
            && forall i: nat :: i < |s| ==> s[|s| - 1 - i] as int - '0' as int == Shift(n, 10, i) % 10
  {
    if n >= 10 {
      DigitsAreDecimal(n / 10);
      var s, front := Decimal.Digits(n), Decimal.Digits(n / 10);
      assert |s| == |front| + 1;
      if |front| == 1 { assert Shift(n, 10, 1) == Shift(n / 10, 10, 0); }
      forall i: nat | i < |s|
        ensures s[|s| - 1 - i] as int - '0' as int == Shift(n, 10, i) % 10
      {
        if i > 0 { assert s[|s| - 1 - i] == front[|front| - 1 - (i - 1)]; }
      }
    }
  }

  /** The text of a book's key: length and type, data, length and NBT, each ended by a colon but the last. */
  lemma KeyTextLayout()
    ensures X.Fingerprint(Item("ab", -12, "xyz")) == "2:ab:-12:3:xyz"
  {
    assert Decimal.Digits(12) == "12" && Decimal.Text(2) == "2" && Decimal.Text(3) == "3";
    assert Decimal.Text(-12) == "-12";
  }

  // ----- varints -----

  /** Seven bits to a byte, lowest first; all bytes but the last have the high bit, and the last is needed. */
  lemma {:induction false} VarintGroups(v: nat)
    ensures var s := Varint.Var(v);
            && Shift(v, 128, |s|) == 0 && (1 < |s| ==> Shift(v, 128, |s| - 1) != 0)
            && forall i: nat :: i < |s| ==> s[i] % 128 == Shift(v, 128, i) % 128 && (128 <= s[i] <==> i < |s| - 1)
  {
    if v >= 128 {
      VarintGroups(v / 128);
      var s, rest := Varint.Var(v), Varint.Var(v / 128);
      assert |s| == |rest| + 1;
      if |rest| == 1 { assert Shift(v, 128, 1) == Shift(v / 128, 128, 0); }
      forall i: nat | i < |s|
        ensures s[i] % 128 == Shift(v, 128, i) % 128 && (128 <= s[i] <==> i < |s| - 1)
      {
        if i > 0 { assert s[i] == rest[i - 1]; }
      }
    }
  }

  // ----- fixed-width integers -----

  /** The low `k` bytes of an integer in two's complement, lowest first. */
  predicate LowBytes(s: seq<byte>, v: int, k: nat)
  {
    |s| == k && forall i: nat :: i < k ==> s[i] == Shift(v, 256, i) % 256
  }

  lemma {:induction false} LittleIsLow(n: nat, v: int, k: nat, m: int)
    requires n == v + m * Pow256(k)
    ensures LowBytes(Little(n, k), v, k)
    decreases k
  {
    if k > 0 {
      var p := m * Pow256(k - 1);
      assert m * Pow256(k) == 256 * p;
      LowDigit(n, v, p);
      LittleIsLow(n / 256, v / 256, k - 1, m);
      var s, rest := Little(n, k), Little(n / 256, k - 1);
      forall i: nat | i < k
        ensures s[i] == Shift(v, 256, i) % 256
      {
        if i > 0 { assert s[i] == rest[i - 1]; }
      }
    }
  }

  lemma LowDigit(n: nat, v: int, p: int)
    requires n == v + 256 * p
    ensures n % 256 == v % 256 && n / 256 == v / 256 + p
  {
  }

  lemma LengthIsLow(n: nat, k: nat)
    ensures LowBytes(Little(n, k), n, k)
  {
    LittleIsLow(n, n, k, 0);
  }

  lemma IntIsLow(v: int, k: nat)
    ensures LowBytes(WriteInt(v, k), v, k)
  {
    var p := Pow256(k);
    if Fits(v, k) {
      LittleIsLow(Raw(v, k), v, k, if v < 0 then 1 else 0);
    } else {
      assert v == p * (v / p) + v % p;
      LittleIsLow(v % p, v, k, -(v / p));
    }
  }

  // ----- item data -----

  /** All parts, one after another. */
  function Flat(parts: seq<seq<byte>>): seq<byte>
  {
    if parts == [] then [] else parts[0] + Flat(parts[1..])
  }

  /** Length in four bytes, then the bytes themselves. */
  predicate Prefixed(s: seq<byte>, body: seq<byte>)
  {
    |s| == 4 + |body| && LowBytes(s[..4], |body|, 4) && s[4..] == body
  }

  /** Count in four bytes, then the parts. */
  predicate Counted(s: seq<byte>, parts: seq<seq<byte>>)
  {
    4 <= |s| && LowBytes(s[..4], |parts|, 4) && s[4..] == Flat(parts)
  }

  /** How a field stands in its compound: its key with a length, then its tag. */
  predicate FieldBytes(s: seq<byte>, f: Field)
  {
    exists n: nat :: n <= |s| && Prefixed(s[..n], f.key) && s[n..] == WriteTag(f.value)
  }

  ghost predicate Layout(t: Tag, s: seq<byte>)
  {
    s != []
    && match t
       case EndTag => s == [0]
       case ByteTag(b) => s == [1, b]
       case ShortTag(v) => s[0] == 2 && LowBytes(s[1..], v, 2)
       case IntTag(v) => s[0] == 3 && LowBytes(s[1..], v, 4)
       case LongTag(v) => s[0] == 4 && LowBytes(s[1..], v, 8)
       case FloatTag(n) => s[0] == 5 && LowBytes(s[1..], n, 4)
       case DoubleTag(n) => s[0] == 6 && LowBytes(s[1..], n, 8)
       case ByteArrayTag(bs) => s[0] == 7 && Prefixed(s[1..], bs)
       case StringTag(text) => s[0] == 8 && Prefixed(s[1..], text)
       case ListTag(items) =>
         exists parts :: s[0] == 9 && |parts| == |items| && Counted(s[1..], parts)
                         && forall i :: 0 <= i < |items| ==> parts[i] == WriteTag(items[i])
       case CompoundTag(fs) =>
         exists parts :: s[0] == 10 && |parts| == |fs| && Counted(s[1..], parts)
                         && forall i :: 0 <= i < |fs| ==> FieldBytes(parts[i], fs[i])
       case IntArrayTag(vs) =>
         exists parts :: s[0] == 11 && |parts| == |vs| && Counted(s[1..], parts)
                         && forall i :: 0 <= i < |vs| ==> LowBytes(parts[i], vs[i], 4)
  }

  lemma TextIsPrefixed(text: Text)
    ensures Prefixed(WriteText(text), text)
  {
    LengthIsLow(|text|, 4);
    var s := WriteText(text);
    assert s[..4] == Little(|text|, 4) && s[4..] == text;
  }

  lemma {:induction false} IntsAreFlat(vs: seq<int>) returns (parts: seq<seq<byte>>)
    ensures |parts| == |vs| && WriteInts(vs) == Flat(parts)
    ensures forall i :: 0 <= i < |vs| ==> LowBytes(parts[i], vs[i], 4)
  {
    parts := [];
    if vs != [] {
      var rest := IntsAreFlat(vs[1..]);
      IntIsLow(vs[0], 4);
      parts := [WriteInt(vs[0], 4)] + rest;
    }
  }

  lemma {:induction false} ItemsAreFlat(items: seq<Tag>) returns (parts: seq<seq<byte>>)
    ensures |parts| == |items| && WriteItems(items) == Flat(parts)
    ensures forall i :: 0 <= i < |items| ==> parts[i] == WriteTag(items[i])
  {
    parts := [];
    if items != [] {
      var rest := ItemsAreFlat(items[1..]);
      parts := [WriteTag(items[0])] + rest;
    }
  }

  lemma FieldIsWritten(f: Field)
    ensures FieldBytes(WriteText(f.key) + WriteTag(f.value), f)
  {
    TextIsPrefixed(f.key);
    var key := WriteText(f.key);
    var s := key + WriteTag(f.value);
    assert s[..|key|] == key && s[|key|..] == WriteTag(f.value);
  }

  lemma {:induction false} FieldsAreFlat(fs: seq<Field>) returns (parts: seq<seq<byte>>)
    ensures |parts| == |fs| && WriteFields(fs) == Flat(parts)
    ensures forall i :: 0 <= i < |fs| ==> FieldBytes(parts[i], fs[i])
  {
    hide FieldBytes;
    parts := [];
    if fs != [] {
      var rest := FieldsAreFlat(fs[1..]);
      FieldIsWritten(fs[0]);
      parts := [WriteText(fs[0].key) + WriteTag(fs[0].value)] + rest;
    }
  }

  lemma CountIsFirst(parts: seq<seq<byte>>, body: seq<byte>)
    requires body == Flat(parts)
    ensures Counted(Little(|parts|, 4) + body, parts)
  {
    LengthIsLow(|parts|, 4);
    var s := Little(|parts|, 4) + body;
    assert s[..4] == Little(|parts|, 4) && s[4..] == body;
  }

  /** Every tag is its type code and its payload in the codec's layout. */
  lemma TagLayout(t: Tag)
    ensures Layout(t, WriteTag(t))
  {
    hide Counted; hide Prefixed; hide FieldBytes; hide Flat;
    var s := WriteTag(t);
    assert s[1..] == WritePayload(t);
    match t
    case ShortTag(v) => IntIsLow(v, 2);
    case IntTag(v) => IntIsLow(v, 4);
    case LongTag(v) => IntIsLow(v, 8);
    case FloatTag(n) => LengthIsLow(n, 4);
    case DoubleTag(n) => LengthIsLow(n, 8);
    case ByteArrayTag(bs) => TextIsPrefixed(bs);
    case StringTag(text) => TextIsPrefixed(text);
    case ListTag(items) => var parts := ItemsAreFlat(items); CountIsFirst(parts, WriteItems(items));
    case CompoundTag(fs) => var parts := FieldsAreFlat(fs); CountIsFirst(parts, WriteFields(fs));
    case IntArrayTag(vs) => var parts := IntsAreFlat(vs); CountIsFirst(parts, WriteInts(vs));
    case _ =>
  }

  /** An encoding is "EXNB", version 1, and the compound's tag; only a text of 2^32 bytes or more has none. */
  lemma EncodingLayout(fields: seq<Field>)
    ensures match Encode(fields)
            case Err(e) => e == NbtStringTooLarge && !TextsFit(CompoundTag(fields))
            case Ok(s) => s[..5] == ['E' as byte, 'X' as byte, 'N' as byte, 'B' as byte, 1]
                          && Layout(CompoundTag(fields), s[5..])
    ensures forall i :: 0 <= i < |fields| && |fields[i].key| >= 0x1_0000_0000 ==> Encode(fields).Err?
  {
    hide Layout;
    TagLayout(CompoundTag(fields));
    FourBytes();
    if Encode(fields).Ok? { assert Encode(fields).value[5..] == WriteTag(CompoundTag(fields)); }
  }

  lemma FourBytes()
    ensures Pow256(4) == 0x1_0000_0000
  {
    assert Pow256(1) == 256 && Pow256(2) == 0x1_0000 && Pow256(3) == 0x100_0000;
  }

  /** The number in the first four bytes, lowest first. */
  function FourByteNumber(s: seq<byte>): int
    requires 4 <= |s|
  {
    (s[0] as int) + 0x100 * (s[1] as int) + 0x1_0000 * (s[2] as int) + 0x100_0000 * (s[3] as int)
  }

  /** A length is read if its four bytes are there and it is at most 16 MiB. */
  lemma LengthsAreLimited(s: seq<byte>)
    ensures match ReadLength(s)
            case Ok((n, rest)) => 4 <= |s| && n == FourByteNumber(s) && n <= 16 * 1024 * 1024 && rest == s[4..]
            case Err(e) => if |s| < 4 then e == NbtTruncated
                           else e == NbtTooLarge && FourByteNumber(s) > 16 * 1024 * 1024
  {
    if 4 <= |s| { FourBytesRead(s[..4]); }
  }

  lemma FourBytesRead(raw: seq<byte>)
    requires |raw| == 4
    ensures Unlittle(raw) == FourByteNumber(raw)
  {
    assert raw[1..][1..] == raw[2..] && raw[2..][1..] == raw[3..] && raw[3..][1..] == [];
    assert Unlittle(raw[3..]) == raw[3];
    assert Unlittle(raw[2..]) == (raw[2] as int) + 0x100 * (raw[3] as int);
    assert Unlittle(raw[1..]) == (raw[1] as int) + 0x100 * Unlittle(raw[2..]);
  }

  // ----- log files -----

  /** A file is read when it is no larger than 64 MiB. */
  lemma LogsAreLimited(bytes: L.Data, wanted: L.Data, v: L.View)
    ensures L.InspectLog(bytes, wanted, v).Err? <==> |bytes| > 64 * 1024 * 1024
  {
    hide L.Scan;
  }

  lemma ScanEnd(bytes: L.Data, c: L.Scanner, wanted: L.Data, cap: int)
    ensures L.Scan(bytes, |bytes|, c, wanted, cap) == c
  {
  }

  lemma SkipTrailer(bytes: L.Data, position: nat, c: L.Scanner, wanted: L.Data, cap: int)
    requires position % 0x8000 == 0x7fff && position + 7 <= |bytes|
    ensures L.Scan(bytes, position, c, wanted, cap) == L.Scan(bytes, position + 1, c, wanted, cap)
  {
  }

  /** A record that ends one byte before 32 KiB, the byte left over, and a record in the next block. */
  lemma BlocksAre32KiB(crc: L.Data -> nat, a: L.Data, b: L.Data, wanted: L.Data, v: L.View)
    requires |a| == 32 * 1024 - 8 && |b| <= 32 * 1024 - 7
    ensures L.InspectLog(L.Physical(crc, 1, a) + [0] + L.Physical(crc, 1, b), wanted, v)
         == Ok(L.InspectBatch(b, wanted, L.InspectBatch(a, wanted, v)))
  {
    hide L.Scan; hide L.InspectBatch; hide L.Physical;
    var x, y := L.Physical(crc, 1, a), L.Physical(crc, 1, b);
    var bytes := x + [0] + y;
    assert bytes[..0x7fff] == x && bytes[0x8000..0x8000 + |y|] == y;
    var c := L.Scanner([], false, v);
    var d := L.Scanner([], false, L.InspectBatch(a, wanted, v));
    P.ScanPhysical(bytes, 0, crc, 1, a, c, wanted, L.MaxCapture);
    SkipTrailer(bytes, 0x7fff, d, wanted, L.MaxCapture);
    P.ScanPhysical(bytes, 0x8000, crc, 1, b, d, wanted, L.MaxCapture);
    ScanEnd(bytes, L.Scanner([], false, L.InspectBatch(b, wanted, d.view)), wanted, L.MaxCapture);
  }

  /** A physical record is four bytes of checksum, two of length, one of type, and its data. */
  lemma PhysicalLayout(crc: L.Data -> nat, kind: byte, data: L.Data)
    requires |data| < 0x1_0000
    ensures var s := L.Physical(crc, kind, data);
            |s| == 7 + |data| && LowBytes(s[4..6], |data|, 2) && s[6] == kind && s[7..] == data
  {
    LengthIsLow(|data|, 2);
    var s := L.Physical(crc, kind, data);
    assert s == Little(crc([kind] + data), 4) + Little(|data|, 2) + [kind] + data;
    assert s[4..6] == Little(|data|, 2);
  }
}
