/** The codec as it runs: a writer that appends to a buffer and a reader that advances a position. */
module NbtStreams {
  import opened Domain
  import opened Bytes
  import opened Nbt

  class Writer {
    var bytes: seq<byte>

    constructor ()
      ensures bytes == []
    {
      bytes := [];
    }

    /** Appends the low `k` bytes of a bit pattern, shifting them out one by one. */
    method Integral(raw: nat, k: nat)
      modifies this
      ensures bytes == old(bytes) + Little(raw, k)
    {
      var rest, i := raw, 0;
      while i < k
        invariant i <= k && bytes + Little(rest, k - i) == old(bytes) + Little(raw, k)
      {
        assert Little(rest, k - i) == [rest % 256] + Little(rest / 256, k - i - 1);
        bytes := bytes + [rest % 256];
        rest := rest / 256;
        i := i + 1;
      }
    }

    method Integer(v: int, k: nat)
      modifies this
      ensures bytes == old(bytes) + WriteInt(v, k)
    {
      if Fits(v, k) { Integral(Raw(v, k), k); } else { Integral(v % Pow256(k), k); }
    }

    method Str(value: Text)
      modifies this
      ensures bytes == old(bytes) + WriteText(value)
    {
      Integral(|value|, 4);
      bytes := bytes + value;
    }

    method Write(t: Tag)
      modifies this
      ensures bytes == old(bytes) + WriteTag(t)
      decreases t, 1
    {
      bytes := bytes + [TypeOf(t)];
      Payload(t);
    }

    method Payload(t: Tag)
      modifies this
      ensures bytes == old(bytes) + WritePayload(t)
      decreases t, 0
    {
      hide Little; hide WriteInt; hide WriteTag;
      match t {
        case EndTag =>
        case ByteTag(b) => bytes := bytes + [b];
        case ShortTag(v) => Integer(v, 2);
        case IntTag(v) => Integer(v, 4);
        case LongTag(v) => Integer(v, 8);
        case FloatTag(n) => Integral(n, 4);
        case DoubleTag(n) => Integral(n, 8);
        case StringTag(s) => Str(s);
        case ByteArrayTag(bs) =>
          Integral(|bs|, 4);
          bytes := bytes + bs;
        case IntArrayTag(vs) =>
          Integral(|vs|, 4);
          Ints(vs);
        case ListTag(items) =>
          Integral(|items|, 4);
          Items(items);
        case CompoundTag(fs) =>
          Integral(|fs|, 4);
          Fields(fs);
      }
    }

    method Ints(vs: seq<int>)
      modifies this
      ensures bytes == old(bytes) + WriteInts(vs)
    {
      hide WriteInt;
      var i := 0;
      while i < |vs|
        invariant i <= |vs| && bytes + WriteInts(vs[i..]) == old(bytes) + WriteInts(vs)
      {
        assert WriteInts(vs[i..]) == WriteInt(vs[i], 4) + WriteInts(vs[i + 1..]);
        Integer(vs[i], 4);
        i := i + 1;
      }
    }

    method Items(items: seq<Tag>)
      modifies this
      ensures bytes == old(bytes) + WriteItems(items)
      decreases items, 2
    {
      hide WriteTag;
      var i := 0;
      while i < |items|
        invariant i <= |items| && bytes + WriteItems(items[i..]) == old(bytes) + WriteItems(items)
      {
        assert WriteItems(items[i..]) == WriteTag(items[i]) + WriteItems(items[i + 1..]);
        Write(items[i]);
        i := i + 1;
      }
    }

    method Fields(fs: seq<Field>)
      modifies this
      ensures bytes == old(bytes) + WriteFields(fs)
      decreases fs, 2
    {
      hide WriteTag; hide WriteText;
      var i := 0;
      while i < |fs|
        invariant i <= |fs| && bytes + WriteFields(fs[i..]) == old(bytes) + WriteFields(fs)
      {
        assert WriteFields(fs[i..]) == WriteText(fs[i].key) + WriteTag(fs[i].value) + WriteFields(fs[i + 1..]);
        Str(fs[i].key);
        Write(fs[i].value);
        i := i + 1;
      }
    }
  }

  /** What a reader must have done when the pure reader gives `r` for what lay before it. */
  ghost predicate Agrees<T>(r: Result<T>, spec: Result<(T, seq<byte>)>, rest: seq<byte>)
  {
    match spec
    case Ok((v, tail)) => r == Ok(v) && rest == tail
    case Err(e) => r == Err(e)
  }

  lemma {:induction false} UnlittleAppend(s: seq<byte>, b: byte)
    ensures Unlittle(s + [b]) == Unlittle(s) + b * Pow256(|s|)
  {
    if s != [] {
      UnlittleAppend(s[1..], b);
      assert (s + [b])[1..] == s[1..] + [b];
    }
  }

  class Reader {
    const bytes: seq<byte>
    var position: nat

    ghost predicate Inside()
      reads this
    {
      position <= |bytes|
    }

    function Ahead(): seq<byte>
      requires Inside()
      reads this
    {
      bytes[position..]
    }

    constructor (bytes: seq<byte>)
      ensures this.bytes == bytes && Inside() && Ahead() == bytes
    {
      this.bytes := bytes;
      position := 0;
    }

    method Integral(k: nat) returns (r: Result<nat>)
      requires Inside()
      modifies this
      ensures Inside() && old(position) <= position && Agrees(r, ReadNat(old(Ahead()), k), Ahead())
    {
      if k > |bytes| - position { return Err(NbtTruncated); }
      var raw: nat, weight: int, i: nat := 0, 1, 0;
      ghost var start := position;
      while i < k
        invariant i <= k && position == start + i <= |bytes| && weight == Pow256(i)
        invariant raw == Unlittle(bytes[start..position])
      {
        UnlittleAppend(bytes[start..position], bytes[position]);
        assert bytes[start..position + 1] == bytes[start..position] + [bytes[position]];
        raw := raw + bytes[position] * weight;
        weight, position, i := weight * 256, position + 1, i + 1;
      }
      assert old(Ahead())[..k] == bytes[start..position] && old(Ahead())[k..] == bytes[position..];
      r := Ok(raw);
    }

    method Integer(k: nat) returns (r: Result<int>)
      requires Inside()
      modifies this
      ensures Inside() && old(position) <= position && Agrees(r, ReadInt(old(Ahead()), k), Ahead())
    {
      hide Unlittle; hide Pow256; hide Signed;
      var raw :- Integral(k);
      r := Ok(Signed(raw, k));
    }

    method Length() returns (r: Result<nat>)
      requires Inside()
      modifies this
      ensures Inside() && old(position) <= position && Agrees(r, ReadLength(old(Ahead())), Ahead())
    {
      var n :- Integral(4);
      if n > MaxLength { return Err(NbtTooLarge); }
      r := Ok(n);
    }

    method Str() returns (r: Result<Text>)
      requires Inside()
      modifies this
      ensures Inside() && old(position) <= position && Agrees(r, ReadText(old(Ahead())), Ahead())
    {
      var n :- Length();
      if n > |bytes| - position { return Err(NbtTruncated); }
      r := Ok(bytes[position..position + n]);
      assert Ahead()[..n] == bytes[position..position + n] && Ahead()[n..] == bytes[position + n..];
      position := position + n;
    }

    method Read() returns (r: Result<Tag>)
      requires Inside()
      modifies this
      ensures Inside() && old(position) <= position && Agrees(r, ReadTag(old(Ahead())), Ahead())
      decreases |bytes| - position, 0
    {
      hide ReadNat; hide ReadInt; hide ReadText; hide ReadLength; hide ReadItems; hide ReadFields; hide ReadInts;
      if position == |bytes| { return Err(NbtTruncated); }
      var kind := bytes[position];
      assert Ahead()[0] == kind && Ahead()[1..] == bytes[position + 1..];
      position := position + 1;
      match kind {
        case 0 => r := Ok(EndTag);
        case 1 => var v :- Integral(1); r := Ok(ByteTag(v));
        case 2 => var v :- Integer(2); r := Ok(ShortTag(v));
        case 3 => var v :- Integer(4); r := Ok(IntTag(v));
        case 4 => var v :- Integer(8); r := Ok(LongTag(v));
        case 5 => var v :- Integral(4); r := Ok(FloatTag(v));
        case 6 => var v :- Integral(8); r := Ok(DoubleTag(v));
        case 7 => var v :- Str(); r := Ok(ByteArrayTag(v));
        case 8 => var v :- Str(); r := Ok(StringTag(v));
        case 9 => var n :- Length(); var v :- Items(n); r := Ok(ListTag(v));
        case 10 => var n :- Length(); var v :- Fields(n); r := Ok(CompoundTag(v));
        case 11 => var n :- Length(); var v :- Ints(n); r := Ok(IntArrayTag(v));
        case _ => r := Err(NbtUnknownType);
      }
    }

    method Ints(n: nat) returns (r: Result<seq<int>>)
      requires Inside()
      modifies this
      ensures Inside() && old(position) <= position && Agrees(r, ReadInts(old(Ahead()), n), Ahead())
    {
      hide ReadInt;
      var vs, i := [], 0;
      ghost var all := ReadInts(Ahead(), n);
      assert all.Ok? ==> [] + all.value.0 == all.value.0;
      while i < n
        invariant i <= n && Inside() && old(position) <= position
        invariant match ReadInts(Ahead(), n - i)
                  case Ok((more, tail)) => ReadInts(old(Ahead()), n) == Ok((vs + more, tail))
                  case Err(e) => ReadInts(old(Ahead()), n) == Err(e)
      {
        ghost var spec := ReadInts(Ahead(), n - i);
        var v :- Integer(4);
        if spec.Ok? {
          ghost var more := ReadInts(Ahead(), n - i - 1).value.0;
          assert vs + ([v] + more) == vs + [v] + more;
        }
        vs, i := vs + [v], i + 1;
      }
      assert vs + [] == vs;
      r := Ok(vs);
    }

    method Items(n: nat) returns (r: Result<seq<Tag>>)
      requires Inside()
      modifies this
      ensures Inside() && old(position) <= position && Agrees(r, ReadItems(old(Ahead()), n), Ahead())
      decreases |bytes| - position, 1
    {
      hide ReadTag;
      var ts, i := [], 0;
      ghost var all := ReadItems(Ahead(), n);
      assert all.Ok? ==> [] + all.value.0 == all.value.0;
      while i < n
        invariant i <= n && Inside() && old(position) <= position
        invariant match ReadItems(Ahead(), n - i)
                  case Ok((more, tail)) => ReadItems(old(Ahead()), n) == Ok((ts + more, tail))
                  case Err(e) => ReadItems(old(Ahead()), n) == Err(e)
      {
        ghost var spec := ReadItems(Ahead(), n - i);
        var t :- Read();
        if spec.Ok? {
          ghost var more := ReadItems(Ahead(), n - i - 1).value.0;
          assert ts + ([t] + more) == ts + [t] + more;
        }
        ts, i := ts + [t], i + 1;
      }
      assert ts + [] == ts;
      r := Ok(ts);
    }

    /** Reads the key of each field before its value, and puts both into a map. */
    method Fields(n: nat) returns (r: Result<seq<Field>>)
      requires Inside()
      modifies this
      ensures Inside() && old(position) <= position && Agrees(r, ReadFields(old(Ahead()), n, []), Ahead())
      decreases |bytes| - position, 1
    {
      hide ReadTag; hide ReadText; hide Put;
      var fs, i := [], 0;
      while i < n
        invariant i <= n && Inside() && old(position) <= position
        invariant ReadFields(old(Ahead()), n, []) == ReadFields(Ahead(), n - i, fs)
      {
        var key :- Str();
        var value :- Read();
        fs, i := Put(fs, Field(key, value)), i + 1;
      }
      r := Ok(fs);
    }
  }

  method EncodeCompound(fields: seq<Field>) returns (r: Result<seq<byte>>)
    ensures r == Encode(fields)
  {
    hide WriteTag; hide Little;
    OneByte();
    if !TextsFit(CompoundTag(fields)) { return Err(NbtStringTooLarge); }
    var writer := new Writer();
    writer.Integral(69, 1);
    writer.Integral(88, 1);
    writer.Integral(78, 1);
    writer.Integral(66, 1);
    writer.Integral(1, 1);
    assert writer.bytes == Header;
    writer.Write(CompoundTag(fields));
    r := Ok(writer.bytes);
  }

  lemma OneByte()
    ensures forall b: byte :: Little(b, 1) == [b]
  {
    forall b: byte
      ensures Little(b, 1) == [b]
    {
      assert Little(b, 1) == [b % 256] + Little(b / 256, 0);
    }
  }

  method DecodeCompound(bytes: seq<byte>) returns (r: Result<seq<Field>>)
    ensures r == Decode(bytes)
  {
    hide ReadTag;
    if bytes == [] { return Ok([]); }
    var reader := new Reader(bytes);
    var i := 0;
    while i < 5
      invariant i <= 5 && reader.Inside() && reader.position == i && reader.bytes == bytes
      invariant ReadHeader(bytes, Header) == ReadHeader(bytes[i..], Header[i..])
    {
      assert Header[i..][0] == Header[i] && Header[i..][1..] == Header[i + 1..];
      FirstByte(reader.Ahead());
      var b :- reader.Integral(1);
      assert bytes[i..][1..] == bytes[i + 1..];
      if b != Header[i] { return Err(NbtBadHeader); }
      i := i + 1;
    }
    var t :- reader.Read();
    if reader.position != |bytes| || !t.CompoundTag? { return Err(NbtBadRoot); }
    r := Ok(t.fields);
  }

  lemma FirstByte(s: seq<byte>)
    ensures ReadNat(s, 1) == if s == [] then Err(NbtTruncated) else Ok((s[0], s[1..]))
  {
    if s != [] { assert s[..1] == [s[0]] && Unlittle([s[0]]) == s[0] + 256 * Unlittle([]); }
  }
}
