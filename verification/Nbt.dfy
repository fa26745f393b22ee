/** The private NBT encoding of item data: a recursive writer, a recursive reader, and what they promise each other. */
module Nbt {
  import opened Domain
  import opened Bytes

  const MaxLength: int := 0x100_0000

  type Text = seq<byte>

  /** One entry of a compound. */
  datatype Field = Field(key: Text, value: Tag)

  /** A tag; floats are their bit patterns, and a compound lists its fields in key order, as a map does. */
  datatype Tag =
    | EndTag
    | ByteTag(b: byte)
    | ShortTag(v16: int)
    | IntTag(v32: int)
    | LongTag(v64: int)
    | FloatTag(bits32: nat)
    | DoubleTag(bits64: nat)
    | ByteArrayTag(bytes: seq<byte>)
    | StringTag(text: Text)
    | ListTag(items: seq<Tag>)
    | CompoundTag(fields: seq<Field>)
    | IntArrayTag(ints: seq<int>)

  predicate Fits(v: int, k: nat) { -Pow256(k) <= 2 * v < Pow256(k) }

  predicate Sorted(fields: seq<Field>)
  {
    forall i, j :: 0 <= i < j < |fields| ==> Less(fields[i].key, fields[j].key)
  }

  /** Values in the range of their C++ types, and containers within the reader's limit. */
  predicate Valid(t: Tag)
  {
    match t
    case EndTag => true
    case ByteTag(_) => true
    case ShortTag(v) => Fits(v, 2)
    case IntTag(v) => Fits(v, 4)
    case LongTag(v) => Fits(v, 8)
    case FloatTag(n) => n < Pow256(4)
    case DoubleTag(n) => n < Pow256(8)
    case ByteArrayTag(bs) => |bs| <= MaxLength
    case StringTag(s) => |s| <= MaxLength
    case ListTag(items) => |items| <= MaxLength && forall i :: 0 <= i < |items| ==> Valid(items[i])
    case CompoundTag(fs) => ValidFields(fs)
    case IntArrayTag(vs) => |vs| <= MaxLength && forall i :: 0 <= i < |vs| ==> Fits(vs[i], 4)
  }

  predicate ValidFields(fs: seq<Field>)
  {
    |fs| <= MaxLength && Sorted(fs)
    && forall i :: 0 <= i < |fs| ==> |fs[i].key| <= MaxLength && Valid(fs[i].value)
  }

  // ----- writer -----

  function TypeOf(t: Tag): byte
  {
    match t
    case EndTag => 0
    case ByteTag(_) => 1
    case ShortTag(_) => 2
    case IntTag(_) => 3
    case LongTag(_) => 4
    case FloatTag(_) => 5
    case DoubleTag(_) => 6
    case ByteArrayTag(_) => 7
    case StringTag(_) => 8
    case ListTag(_) => 9
    case CompoundTag(_) => 10
    case IntArrayTag(_) => 11
  }

  /** A signed integer of `k` bytes; the cast keeps its low bits. */
  function WriteInt(v: int, k: nat): (s: seq<byte>)
    ensures |s| == k
  {
    if Fits(v, k) then Little(Raw(v, k), k) else Little(v % Pow256(k), k)
  }

  function WriteText(s: Text): seq<byte> { Little(|s|, 4) + s }

  function WriteTag(t: Tag): (s: seq<byte>)
    ensures |s| >= 1
    decreases t, 1
  {
    [TypeOf(t)] + WritePayload(t)
  }

  function WritePayload(t: Tag): seq<byte>
    decreases t, 0
  {
    match t
    case EndTag => []
    case ByteTag(b) => [b]
    case ShortTag(v) => WriteInt(v, 2)
    case IntTag(v) => WriteInt(v, 4)
    case LongTag(v) => WriteInt(v, 8)
    case FloatTag(n) => Little(n, 4)
    case DoubleTag(n) => Little(n, 8)
    case ByteArrayTag(bs) => Little(|bs|, 4) + bs
    case StringTag(s) => WriteText(s)
    case ListTag(items) => Little(|items|, 4) + WriteItems(items)
    case CompoundTag(fs) => Little(|fs|, 4) + WriteFields(fs)
    case IntArrayTag(vs) => Little(|vs|, 4) + WriteInts(vs)
  }

  function WriteInts(vs: seq<int>): seq<byte>
  {
    if vs == [] then [] else WriteInt(vs[0], 4) + WriteInts(vs[1..])
  }

  function WriteItems(items: seq<Tag>): seq<byte>
    decreases items, 2
  {
    if items == [] then [] else WriteTag(items[0]) + WriteItems(items[1..])
  }

  /** Key first, then value. */
  function WriteFields(fs: seq<Field>): seq<byte>
    decreases fs, 2
  {
    if fs == [] then [] else WriteText(fs[0].key) + WriteTag(fs[0].value) + WriteFields(fs[1..])
  }

  // ----- reader -----

  function Take(s: seq<byte>, k: nat): (r: Result<(seq<byte>, seq<byte>)>)
    ensures r.Ok? <==> k <= |s|
    ensures r.Ok? ==> |r.value.0| == k && s == r.value.0 + r.value.1
  {
    if k > |s| then Err(NbtTruncated) else Ok((s[..k], s[k..]))
  }

  function ReadNat(s: seq<byte>, k: nat): (r: Result<(nat, seq<byte>)>)
    ensures r.Ok? ==> |r.value.1| == |s| - k && r.value.0 < Pow256(k)
  {
    var (raw, rest) :- Take(s, k);
    UnlittleBound(raw);
    Ok((Unlittle(raw), rest))
  }

  function ReadInt(s: seq<byte>, k: nat): (r: Result<(int, seq<byte>)>)
    ensures r.Ok? ==> |r.value.1| == |s| - k
  {
    var (raw, rest) :- ReadNat(s, k);
    Ok((Signed(raw, k), rest))
  }

  function ReadLength(s: seq<byte>): (r: Result<(nat, seq<byte>)>)
    ensures r.Ok? ==> |r.value.1| == |s| - 4 && r.value.0 <= MaxLength
  {
    var (n, rest) :- ReadNat(s, 4);
    if n > MaxLength then Err(NbtTooLarge) else Ok((n, rest))
  }

  function ReadText(s: seq<byte>): (r: Result<(Text, seq<byte>)>)
    ensures r.Ok? ==> |r.value.1| < |s| && |r.value.0| <= MaxLength
  {
    var (n, rest) :- ReadLength(s);
    Take(rest, n)
  }

  function ReadInts(s: seq<byte>, n: nat): (r: Result<(seq<int>, seq<byte>)>)
    ensures r.Ok? ==> |r.value.1| <= |s| && |r.value.0| == n
    decreases n
  {
    if n == 0 then Ok(([], s))
    else
      var (v, rest) :- ReadInt(s, 4);
      var (vs, tail) :- ReadInts(rest, n - 1);
      Ok(([v] + vs, tail))
  }

  function ReadTag(s: seq<byte>): (r: Result<(Tag, seq<byte>)>)
    ensures r.Ok? ==> |r.value.1| < |s|
    decreases |s|, 0, 0
  {
    if s == [] then Err(NbtTruncated)
    else
      var kind, rest := s[0], s[1..];
      match kind
      case 0 => Ok((EndTag, rest))
      case 1 => var (v, tail) :- ReadNat(rest, 1); Ok((ByteTag(v), tail))
      case 2 => var (v, tail) :- ReadInt(rest, 2); Ok((ShortTag(v), tail))
      case 3 => var (v, tail) :- ReadInt(rest, 4); Ok((IntTag(v), tail))
      case 4 => var (v, tail) :- ReadInt(rest, 8); Ok((LongTag(v), tail))
      case 5 => var (v, tail) :- ReadNat(rest, 4); Ok((FloatTag(v), tail))
      case 6 => var (v, tail) :- ReadNat(rest, 8); Ok((DoubleTag(v), tail))
      case 7 => var (bs, tail) :- ReadText(rest); Ok((ByteArrayTag(bs), tail))
      case 8 => var (text, tail) :- ReadText(rest); Ok((StringTag(text), tail))
      case 9 =>
        var (n, items) :- ReadLength(rest);
        var (ts, tail) :- ReadItems(items, n);
        Ok((ListTag(ts), tail))
      case 10 =>
        var (n, fields) :- ReadLength(rest);
        var (fs, tail) :- ReadFields(fields, n, []);
        Ok((CompoundTag(fs), tail))
      case 11 =>
        var (n, ints) :- ReadLength(rest);
        var (vs, tail) :- ReadInts(ints, n);
        Ok((IntArrayTag(vs), tail))
      case _ => Err(NbtUnknownType)
  }

  function ReadItems(s: seq<byte>, n: nat): (r: Result<(seq<Tag>, seq<byte>)>)
    ensures r.Ok? ==> |r.value.1| <= |s| && |r.value.0| == n
    decreases |s|, 1, n
  {
    if n == 0 then Ok(([], s))
    else
      var (t, rest) :- ReadTag(s);
      var (ts, tail) :- ReadItems(rest, n - 1);
      Ok(([t] + ts, tail))
  }

  /** `insert_or_assign` on a map in key order. */
  function Put(fs: seq<Field>, f: Field): seq<Field>
  {
    if fs == [] || Less(f.key, fs[0].key) then [f] + fs
    else if fs[0].key == f.key then [f] + fs[1..]
    else [fs[0]] + Put(fs[1..], f)
  }

  function ReadFields(s: seq<byte>, n: nat, so_far: seq<Field>): (r: Result<(seq<Field>, seq<byte>)>)
    ensures r.Ok? ==> |r.value.1| <= |s|
    decreases |s|, 1, n
  {
    if n == 0 then Ok((so_far, s))
    else
      var (key, rest) :- ReadText(s);
      var (value, tail) :- ReadTag(rest);
      ReadFields(tail, n - 1, Put(so_far, Field(key, value)))
  }

  // ----- codec -----

  /** `EXNB` and version 1. */
  const Header: seq<byte> := [69, 88, 78, 66, 1]

  /** Every string is short enough for its 32-bit length. */
  predicate TextsFit(t: Tag)
  {
    match t
    case StringTag(s) => |s| < Pow256(4)
    case ListTag(items) => forall i :: 0 <= i < |items| ==> TextsFit(items[i])
    case CompoundTag(fs) => forall i :: 0 <= i < |fs| ==> |fs[i].key| < Pow256(4) && TextsFit(fs[i].value)
    case _ => true
  }

  function Encode(fields: seq<Field>): Result<seq<byte>>
  {
    if TextsFit(CompoundTag(fields)) then Ok(Header + WriteTag(CompoundTag(fields))) else Err(NbtStringTooLarge)
  }

  /** Compares the header byte by byte, and stops at the first wrong or missing one. */
  function ReadHeader(s: seq<byte>, header: seq<byte>): (r: Result<seq<byte>>)
    ensures r.Ok? <==> header <= s
    ensures r.Ok? ==> s == header + r.value
  {
    if header == [] then Ok(s)
    else if s == [] then Err(NbtTruncated)
    else if s[0] != header[0] then Err(NbtBadHeader)
    else
      assert s == [s[0]] + s[1..] && header == [header[0]] + header[1..];
      ReadHeader(s[1..], header[1..])
  }

  function Decode(s: seq<byte>): Result<seq<Field>>
  {
    if s == [] then Ok([])
    else
      var body :- ReadHeader(s, Header);
      var (t, rest) :- ReadTag(body);
      if rest != [] || !t.CompoundTag? then Err(NbtBadRoot) else Ok(t.fields)
  }
}
