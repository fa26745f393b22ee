/** Reading inverts writing, and nothing but a whole encoding is accepted as one. */
module NbtRoundTrip {
  import opened Domain
  import opened Bytes
  import opened Nbt

  // ----- numbers and texts -----

  lemma ReadNatOfLittle(n: nat, k: nat, rest: seq<byte>)
    requires n < Pow256(k)
    ensures ReadNat(Little(n, k) + rest, k) == Ok((n, rest))
  {
    var s := Little(n, k) + rest;
    assert s[..k] == Little(n, k) && s[k..] == rest;
    UnlittleOfLittle(n, k);
  }

  lemma ReadIntOfWrite(v: int, k: nat, rest: seq<byte>)
    requires Fits(v, k)
    ensures ReadInt(WriteInt(v, k) + rest, k) == Ok((v, rest))
  {
    SignedOfRaw(v, k);
    ReadNatOfLittle(Raw(v, k), k, rest);
  }

  lemma FourBytesHoldLengths(n: nat)
    requires n <= MaxLength
    ensures n < Pow256(4)
  {
    assert Pow256(1) == 256 && Pow256(2) == 0x1_0000 && Pow256(3) == 0x100_0000 && Pow256(4) == 0x1_0000_0000;
  }

  lemma ReadLengthOfLittle(n: nat, rest: seq<byte>)
    requires n <= MaxLength
    ensures ReadLength(Little(n, 4) + rest) == Ok((n, rest))
  {
    FourBytesHoldLengths(n);
    ReadNatOfLittle(n, 4, rest);
  }

  lemma ReadTextOfWrite(text: Text, rest: seq<byte>)
    requires |text| <= MaxLength
    ensures ReadText(WriteText(text) + rest) == Ok((text, rest))
  {
    assert WriteText(text) + rest == Little(|text|, 4) + (text + rest);
    ReadLengthOfLittle(|text|, text + rest);
    assert (text + rest)[..|text|] == text && (text + rest)[|text|..] == rest;
  }

  lemma {:induction false} ReadIntsOfWrite(vs: seq<int>, rest: seq<byte>)
    requires forall i :: 0 <= i < |vs| ==> Fits(vs[i], 4)
    ensures ReadInts(WriteInts(vs) + rest, |vs|) == Ok((vs, rest))
  {
    if vs == [] {
      assert WriteInts(vs) + rest == rest;
    } else {
      ReadIntsOfWrite(vs[1..], rest);
      assert WriteInts(vs) + rest == WriteInt(vs[0], 4) + (WriteInts(vs[1..]) + rest);
      ReadIntOfWrite(vs[0], 4, WriteInts(vs[1..]) + rest);
      assert vs == [vs[0]] + vs[1..];
    }
  }

  // ----- tags -----

  lemma TagSplits(t: Tag, rest: seq<byte>)
    ensures var s := WriteTag(t) + rest; s != [] && s[0] == TypeOf(t) && s[1..] == WritePayload(t) + rest
  {
  }

  /** Reading what was written gives the tag back and stops right after it. */
  lemma {:induction false} ReadTagOfWrite(t: Tag, rest: seq<byte>)
    requires Valid(t)
    ensures ReadTag(WriteTag(t) + rest) == Ok((t, rest))
    decreases t, 1
  {
    hide Little; hide WriteInt; hide Pow256; hide WriteItems; hide WriteFields; hide WriteInts; hide Put; hide WriteTag;
    hide ReadInt; hide ReadNat; hide ReadText; hide ReadLength; hide ReadItems; hide ReadFields; hide ReadInts;
    hide Sorted;
    TagSplits(t, rest);
    match t
    case EndTag => assert WritePayload(t) + rest == rest;
    case ByteTag(b) => ReadByteOfWrite(b, rest);
    case ShortTag(v) => ReadIntOfWrite(v, 2, rest);
    case IntTag(v) => ReadIntOfWrite(v, 4, rest);
    case LongTag(v) => ReadIntOfWrite(v, 8, rest);
    case FloatTag(n) => ReadNatOfLittle(n, 4, rest);
    case DoubleTag(n) => ReadNatOfLittle(n, 8, rest);
    case ByteArrayTag(bs) => ReadTextOfWrite(bs, rest);
    case StringTag(text) => ReadTextOfWrite(text, rest);
    case ListTag(items) =>
      LengthThen(|items|, WriteItems(items), rest);
      ReadItemsOfWrite(items, rest);
    case CompoundTag(fs) =>
      LengthThen(|fs|, WriteFields(fs), rest);
      assert [] + fs == fs;
      ReadFieldsOfWrite(fs, [], rest);
    case IntArrayTag(vs) =>
      LengthThen(|vs|, WriteInts(vs), rest);
      ReadIntsOfWrite(vs, rest);
  }

  /** A container's length comes before its body. */
  lemma LengthThen(n: nat, body: seq<byte>, rest: seq<byte>)
    requires n <= MaxLength
    ensures ReadLength(Little(n, 4) + body + rest) == Ok((n, body + rest))
  {
    assert Little(n, 4) + body + rest == Little(n, 4) + (body + rest);
    ReadLengthOfLittle(n, body + rest);
  }

  lemma ReadByteOfWrite(b: byte, rest: seq<byte>)
    ensures ReadNat([b] + rest, 1) == Ok((b, rest))
  {
    assert Pow256(1) == 256 && Little(b, 1) == [b] + Little(0, 0) == [b];
    ReadNatOfLittle(b, 1, rest);
  }

  lemma {:induction false} ReadItemsOfWrite(items: seq<Tag>, rest: seq<byte>)
    requires forall i :: 0 <= i < |items| ==> Valid(items[i])
    ensures ReadItems(WriteItems(items) + rest, |items|) == Ok((items, rest))
    decreases items, 2
  {
    if items == [] {
      assert WriteItems(items) + rest == rest;
    } else {
      var more := WriteItems(items[1..]) + rest;
      assert WriteItems(items) + rest == WriteTag(items[0]) + more;
      ReadTagOfWrite(items[0], more);
      ReadItemsOfWrite(items[1..], rest);
      assert items == [items[0]] + items[1..];
    }
  }

  /** In key order, `insert_or_assign` of the next field appends it. */
  lemma {:induction false} PutAppends(fs: seq<Field>, f: Field)
    requires Sorted(fs + [f])
    ensures Put(fs, f) == fs + [f]
  {
    if fs != [] {
      assert (fs + [f])[0] == fs[0] && (fs + [f])[|fs|] == f;
      LessIsStrict(fs[0].key, f.key);
      assert forall i :: 0 <= i < |fs| ==> (fs[1..] + [f])[i] == (fs + [f])[i + 1];
      PutAppends(fs[1..], f);
      assert fs + [f] == [fs[0]] + (fs[1..] + [f]);
    }
  }

  lemma {:induction false} ReadFieldsOfWrite(fs: seq<Field>, so_far: seq<Field>, rest: seq<byte>)
    requires Sorted(so_far + fs)
    requires forall i :: 0 <= i < |fs| ==> |fs[i].key| <= MaxLength && Valid(fs[i].value)
    ensures ReadFields(WriteFields(fs) + rest, |fs|, so_far) == Ok((so_far + fs, rest))
    decreases fs, 2
  {
    hide WriteTag; hide WritePayload; hide WriteText; hide ReadTag; hide ReadText; hide Valid; hide Put; hide Sorted;
    if fs == [] {
      assert WriteFields(fs) + rest == rest && so_far + fs == so_far;
    } else {
      var f, more := fs[0], WriteFields(fs[1..]) + rest;
      assert WriteFields(fs) + rest == WriteText(f.key) + (WriteTag(f.value) + more);
      ReadTextOfWrite(f.key, WriteTag(f.value) + more);
      ReadTagOfWrite(f.value, more);
      SortedPrefix(so_far, fs);
      PutAppends(so_far, f);
      assert so_far + [f] + fs[1..] == so_far + fs;
      ReadFieldsOfWrite(fs[1..], so_far + [f], rest);
      assert Field(f.key, f.value) == f;
    }
  }

  lemma SortedPrefix(a: seq<Field>, b: seq<Field>)
    requires Sorted(a + b) && b != []
    ensures Sorted(a + [b[0]])
  {
    assert forall i :: 0 <= i < |a| + 1 ==> (a + [b[0]])[i] == (a + b)[i];
  }

  lemma {:induction false} ValidTextsFit(t: Tag)
    requires Valid(t)
    ensures TextsFit(t)
    decreases t
  {
    FourBytesHoldLengths(MaxLength);
    match t
    case ListTag(items) => forall i | 0 <= i < |items| ensures TextsFit(items[i]) { ValidTextsFit(items[i]); }
    case CompoundTag(fs) => forall i | 0 <= i < |fs| ensures TextsFit(fs[i].value) { ValidTextsFit(fs[i].value); }
    case _ =>
  }

  /** `decode(encode(t)) = t` for every compound within the length limit. */
  lemma DecodeOfEncode(fields: seq<Field>)
    requires ValidFields(fields)
    ensures Encode(fields).Ok? && Decode(Encode(fields).value) == Ok(fields)
  {
    var t := CompoundTag(fields);
    assert Valid(t);
    ValidTextsFit(t);
    ReadTagOfWrite(t, []);
    assert WriteTag(t) + [] == WriteTag(t);
    var s := Header + WriteTag(t);
    assert ReadHeader(s, Header).Ok? && ReadHeader(s, Header).value == WriteTag(t) by {
      assert s[|Header|..] == WriteTag(t);
      assert (Header + ReadHeader(s, Header).value)[|Header|..] == ReadHeader(s, Header).value;
    }
  }

  /** Two compounds with one encoding are the same compound. */
  lemma EncodeIsInjective(a: seq<Field>, b: seq<Field>)
    requires ValidFields(a) && ValidFields(b) && Encode(a) == Encode(b)
    ensures a == b
  {
    DecodeOfEncode(a);
    DecodeOfEncode(b);
  }

  // ----- more input never changes what was read -----

  lemma TakeMore(s: seq<byte>, k: nat, x: seq<byte>)
    requires Take(s, k).Ok?
    ensures Take(s + x, k) == Ok((Take(s, k).value.0, Take(s, k).value.1 + x))
  {
    assert (s + x)[..k] == s[..k] && (s + x)[k..] == s[k..] + x;
  }

  lemma ReadNatMore(s: seq<byte>, k: nat, x: seq<byte>)
    requires ReadNat(s, k).Ok?
    ensures ReadNat(s + x, k) == Ok((ReadNat(s, k).value.0, ReadNat(s, k).value.1 + x))
  {
    TakeMore(s, k, x);
  }

  lemma ReadIntMore(s: seq<byte>, k: nat, x: seq<byte>)
    requires ReadInt(s, k).Ok?
    ensures ReadInt(s + x, k) == Ok((ReadInt(s, k).value.0, ReadInt(s, k).value.1 + x))
  {
    ReadNatMore(s, k, x);
  }

  lemma ReadLengthMore(s: seq<byte>, x: seq<byte>)
    requires ReadLength(s).Ok?
    ensures ReadLength(s + x) == Ok((ReadLength(s).value.0, ReadLength(s).value.1 + x))
  {
    ReadNatMore(s, 4, x);
  }

  lemma ReadTextMore(s: seq<byte>, x: seq<byte>)
    requires ReadText(s).Ok?
    ensures ReadText(s + x) == Ok((ReadText(s).value.0, ReadText(s).value.1 + x))
  {
    ReadLengthMore(s, x);
    var (n, rest) := ReadLength(s).value;
    TakeMore(rest, n, x);
  }

  lemma {:induction false} ReadIntsMore(s: seq<byte>, n: nat, x: seq<byte>)
    requires ReadInts(s, n).Ok?
    ensures ReadInts(s + x, n) == Ok((ReadInts(s, n).value.0, ReadInts(s, n).value.1 + x))
    decreases n
  {
    if n > 0 {
      ReadIntMore(s, 4, x);
      ReadIntsMore(ReadInt(s, 4).value.1, n - 1, x);
    }
  }

  /** Bytes after a tag do not change how the tag reads. */
  lemma {:induction false} ReadTagMore(s: seq<byte>, x: seq<byte>)
    requires ReadTag(s).Ok?
    ensures ReadTag(s + x) == Ok((ReadTag(s).value.0, ReadTag(s).value.1 + x))
    decreases |s|, 0, 0
  {
    var kind, rest := s[0], s[1..];
    assert (s + x)[0] == kind && (s + x)[1..] == rest + x;
    match kind
    case 0 =>
    case 1 => ReadNatMore(rest, 1, x);
    case 2 => ReadIntMore(rest, 2, x);
    case 3 => ReadIntMore(rest, 4, x);
    case 4 => ReadIntMore(rest, 8, x);
    case 5 => ReadNatMore(rest, 4, x);
    case 6 => ReadNatMore(rest, 8, x);
    case 7 => ReadTextMore(rest, x);
    case 8 => ReadTextMore(rest, x);
    case 9 => ReadLengthMore(rest, x); ReadItemsMore(ReadLength(rest).value.1, ReadLength(rest).value.0, x);
    case 10 => ReadLengthMore(rest, x); ReadFieldsMore(ReadLength(rest).value.1, ReadLength(rest).value.0, [], x);
    case 11 => ReadLengthMore(rest, x); ReadIntsMore(ReadLength(rest).value.1, ReadLength(rest).value.0, x);
    case _ =>
  }

  lemma {:induction false} ReadItemsMore(s: seq<byte>, n: nat, x: seq<byte>)
    requires ReadItems(s, n).Ok?
    ensures ReadItems(s + x, n) == Ok((ReadItems(s, n).value.0, ReadItems(s, n).value.1 + x))
    decreases |s|, 1, n
  {
    if n > 0 {
      ReadTagMore(s, x);
      ReadItemsMore(ReadTag(s).value.1, n - 1, x);
    }
  }

  lemma {:induction false} ReadFieldsMore(s: seq<byte>, n: nat, so_far: seq<Field>, x: seq<byte>)
    requires ReadFields(s, n, so_far).Ok?
    ensures ReadFields(s + x, n, so_far) == Ok((ReadFields(s, n, so_far).value.0, ReadFields(s, n, so_far).value.1 + x))
    decreases |s|, 1, n
  {
    hide ReadTag; hide ReadText; hide Put;
    if n > 0 {
      ReadTextMore(s, x);
      var (key, rest) := ReadText(s).value;
      ReadTagMore(rest, x);
      var (value, tail) := ReadTag(rest).value;
      ReadFieldsMore(tail, n - 1, Put(so_far, Field(key, value)), x);
    }
  }

  lemma HeaderMore(s: seq<byte>, x: seq<byte>)
    requires ReadHeader(s, Header).Ok?
    ensures ReadHeader(s + x, Header) == Ok(ReadHeader(s, Header).value + x)
  {
    var body := ReadHeader(s, Header).value;
    assert s + x == Header + (body + x);
    var r := ReadHeader(s + x, Header);
    assert (Header + (body + x))[|Header|..] == body + x && (Header + r.value)[|Header|..] == r.value;
  }

  /** At most one of an input and its proper extensions is accepted. */
  lemma AcceptedIsComplete(s: seq<byte>, x: seq<byte>)
    requires s != [] && x != [] && Decode(s).Ok?
    ensures Decode(s + x) == Err(NbtBadRoot)
  {
    HeaderMore(s, x);
    var body := ReadHeader(s, Header).value;
    ReadTagMore(body, x);
    assert [] + x == x;
  }

  /** Every non-empty proper prefix of an encoding is rejected, and so is an encoding with trailing bytes. */
  lemma OnlyWholeEncodingsDecode(fields: seq<Field>, n: nat, x: seq<byte>)
    requires ValidFields(fields) && x != []
    ensures Encode(fields).Ok?
    ensures 0 < n < |Encode(fields).value| ==> Decode(Encode(fields).value[..n]).Err?
    ensures Decode(Encode(fields).value + x).Err?
  {
    DecodeOfEncode(fields);
    var s := Encode(fields).value;
    if 0 < n < |s| {
      assert s == s[..n] + s[n..];
      if Decode(s[..n]).Ok? { AcceptedIsComplete(s[..n], s[n..]); }
    }
    AcceptedIsComplete(s, x);
  }

  // ----- what the reader produces -----

  /** `insert_or_assign` keeps key order, and adds at most one field. */
  lemma {:induction false} PutKeepsOrder(fs: seq<Field>, f: Field)
    requires Sorted(fs)
    ensures Sorted(Put(fs, f)) && |Put(fs, f)| <= |fs| + 1
    ensures forall x :: x in Put(fs, f) ==> x == f || x in fs
  {
    if fs != [] && !Less(f.key, fs[0].key) && fs[0].key != f.key {
      var rest := Put(fs[1..], f);
      PutKeepsOrder(fs[1..], f);
      LessIsStrict(f.key, fs[0].key);
      forall k | 0 <= k < |rest|
        ensures Less(fs[0].key, rest[k].key)
      {
        assert rest[k] in rest;
        if rest[k] != f {
          var j :| 0 <= j < |fs[1..]| && fs[1..][j] == rest[k];
          assert fs[j + 1] == rest[k];
        }
      }
    } else if fs != [] && Less(f.key, fs[0].key) {
      forall k | 0 <= k < |fs|
        ensures Less(f.key, fs[k].key)
      {
        if k > 0 { LessIsTransitive(f.key, fs[0].key, fs[k].key); }
      }
    }
  }

  lemma ReadIntFits(s: seq<byte>, k: nat)
    requires ReadInt(s, k).Ok?
    ensures Fits(ReadInt(s, k).value.0, k)
  {
    RawOfSigned(ReadNat(s, k).value.0, k);
  }

  lemma {:induction false} ReadIntsFit(s: seq<byte>, n: nat)
    requires ReadInts(s, n).Ok?
    ensures forall i :: 0 <= i < n ==> Fits(ReadInts(s, n).value.0[i], 4)
    decreases n
  {
    if n > 0 {
      ReadIntFits(s, 4);
      ReadIntsFit(ReadInt(s, 4).value.1, n - 1);
    }
  }

  /** The parts a list or a compound is read from. */
  lemma LengthRead(s: seq<byte>)
    requires ReadTag(s).Ok? && (s[0] == 9 || s[0] == 10)
    ensures ReadLength(s[1..]).Ok? && ReadLength(s[1..]).value.0 <= MaxLength && |ReadLength(s[1..]).value.1| < |s|
  {
    hide ReadItems; hide ReadFields;
  }

  lemma ListParts(s: seq<byte>, n: nat, rest: seq<byte>)
    requires ReadTag(s).Ok? && s[0] == 9 && ReadLength(s[1..]) == Ok((n, rest))
    ensures ReadItems(rest, n).Ok? && ReadTag(s).value.0 == ListTag(ReadItems(rest, n).value.0)
  {
    hide ReadItems; hide ReadLength;
  }

  lemma CompoundParts(s: seq<byte>, n: nat, rest: seq<byte>)
    requires ReadTag(s).Ok? && s[0] == 10 && ReadLength(s[1..]) == Ok((n, rest))
    ensures ReadFields(rest, n, []).Ok? && ReadTag(s).value.0 == CompoundTag(ReadFields(rest, n, []).value.0)
  {
    hide ReadFields; hide ReadLength;
  }

  lemma LeafIsValid(s: seq<byte>)
    requires ReadTag(s).Ok? && s[0] != 9 && s[0] != 10
    ensures Valid(ReadTag(s).value.0)
  {
    hide Put; hide Sorted; hide Little; hide Pow256; hide Fits; hide ReadItems; hide ReadFields; hide ReadInt;
    hide ReadInts;
    var rest := s[1..];
    match s[0]
    case 2 => ReadIntFits(rest, 2);
    case 3 => ReadIntFits(rest, 4);
    case 4 => ReadIntFits(rest, 8);
    case 11 => ReadIntsFit(ReadLength(rest).value.1, ReadLength(rest).value.0);
    case _ =>
  }

  /** Whatever the reader accepts is a value the writer can write within the limit. */
  lemma {:induction false} ReadTagIsValid(s: seq<byte>)
    requires ReadTag(s).Ok?
    ensures Valid(ReadTag(s).value.0)
    decreases |s|, 0, 0
  {
    hide Put; hide Sorted; hide ReadTag; hide ReadItems; hide ReadFields; hide ReadLength;
    TagIsNotEmpty(s);
    if s[0] == 9 {
      LengthRead(s);
      var (n, rest) := ReadLength(s[1..]).value;
      ListParts(s, n, rest);
      ReadItemsAreValid(rest, n);
    } else if s[0] == 10 {
      LengthRead(s);
      var (n, rest) := ReadLength(s[1..]).value;
      CompoundParts(s, n, rest);
      NoneSorted();
      ReadFieldsAreValid(rest, n, []);
    } else {
      LeafIsValid(s);
    }
  }

  lemma TagIsNotEmpty(s: seq<byte>)
    requires ReadTag(s).Ok?
    ensures s != []
  {
  }

  lemma NoneSorted()
    ensures Sorted([])
  {
  }

  lemma {:induction false} ReadItemsAreValid(s: seq<byte>, n: nat)
    requires ReadItems(s, n).Ok?
    ensures forall i :: 0 <= i < n ==> Valid(ReadItems(s, n).value.0[i])
    decreases |s|, 1, n
  {
    if n > 0 {
      ReadTagIsValid(s);
      ReadItemsAreValid(ReadTag(s).value.1, n - 1);
    }
  }

  lemma {:induction false} ReadFieldsAreValid(s: seq<byte>, n: nat, so_far: seq<Field>)
    requires ReadFields(s, n, so_far).Ok? && Sorted(so_far)
    requires forall f :: f in so_far ==> |f.key| <= MaxLength && Valid(f.value)
    ensures var fs := ReadFields(s, n, so_far).value.0;
            Sorted(fs) && |fs| <= |so_far| + n && forall f :: f in fs ==> |f.key| <= MaxLength && Valid(f.value)
    decreases |s|, 1, n
  {
    hide Put; hide Sorted; hide Valid; hide ReadTag; hide ReadText;
    if n > 0 {
      var (key, rest) := ReadText(s).value;
      ReadTagIsValid(rest);
      var (value, tail) := ReadTag(rest).value;
      PutKeepsOrder(so_far, Field(key, value));
      ReadFieldsAreValid(tail, n - 1, Put(so_far, Field(key, value)));
    }
  }

  /** Decoding is idempotent through the writer: writing what was read and reading it again changes nothing. */
  lemma DecodedIsWritable(s: seq<byte>)
    requires Decode(s).Ok?
    ensures ValidFields(Decode(s).value)
    ensures Encode(Decode(s).value).Ok? && Decode(Encode(Decode(s).value).value) == Decode(s)
  {
    if s == [] {
      assert ValidFields([]);
    } else {
      ReadTagIsValid(ReadHeader(s, Header).value);
    }
    DecodeOfEncode(Decode(s).value);
  }

  /** A compound written with one key twice. */
  function TwiceTheSameKey(): seq<byte>
  {
    Header + ([10] + (Little(2, 4) + (WriteText([]) + ([0] + (WriteText([]) + [0])))))
  }

  lemma RepeatedFieldsRead()
    ensures ReadFields(WriteText([]) + ([0] + (WriteText([]) + [0])), 2, []) == Ok(([Field([], EndTag)], []))
  {
    hide ReadText; hide WriteText; hide ReadLength;
    var last := WriteText([]) + [0];
    var fields := WriteText([]) + ([0] + last);
    ReadTextOfWrite([], [0] + last);
    ReadTextOfWrite([], [0]);
    assert ([0] + last)[1..] == last && [0][1..] == [];
    assert ReadTag([0] + last) == Ok((EndTag, last)) && ReadTag([0]) == Ok((EndTag, []));
    var f := Field([], EndTag);
    assert Put([], f) == [f] && Put([f], f) == [f];
    assert ReadFields(last, 1, [f]) == Ok(([f], []));
    assert ReadFields(fields, 2, []) == Ok(([f], []));
  }

  lemma CompoundRead(fields: seq<byte>, n: nat, fs: seq<Field>)
    requires n <= MaxLength && ReadFields(fields, n, []) == Ok((fs, []))
    ensures ReadTag([10] + (Little(n, 4) + fields)) == Ok((CompoundTag(fs), []))
  {
    hide ReadFields; hide ReadLength; hide Little;
    var body := [10] + (Little(n, 4) + fields);
    ReadLengthOfLittle(n, fields);
    assert body[1..] == Little(n, 4) + fields;
  }

  /** The reader is more generous than the writer: a repeated key is accepted, and its last value wins. */
  lemma RepeatedKeysAreAccepted()
    ensures Decode(TwiceTheSameKey()) == Ok([Field([], EndTag)])
    ensures Encode([Field([], EndTag)]).Ok? && Encode([Field([], EndTag)]).value != TwiceTheSameKey()
  {
    hide ReadText; hide WriteText; hide ReadLength;
    hide ReadTag; hide ReadFields;
    var f := Field([], EndTag);
    var fields := WriteText([]) + ([0] + (WriteText([]) + [0]));
    var body := [10] + (Little(2, 4) + fields);
    RepeatedFieldsRead();
    CompoundRead(fields, 2, [f]);
    assert (Header + ReadHeader(TwiceTheSameKey(), Header).value)[5..] == body;
    assert ReadHeader(TwiceTheSameKey(), Header) == Ok(body);
    OneFieldIsShorter(f);
  }

  lemma OneFieldIsShorter(f: Field)
    requires f == Field([], EndTag)
    ensures Encode([f]).Ok? && |Encode([f]).value| < |TwiceTheSameKey()|
  {
    assert [f][1..] == [];
    assert ValidFields([f]);
    ValidTextsFit(CompoundTag([f]));
    assert WriteTag(EndTag) == [0];
    assert |WriteText([])| == 4;
    assert WriteFields([f]) == WriteText([]) + WriteTag(EndTag) + WriteFields([]);
    assert WritePayload(CompoundTag([f])) == Little(1, 4) + WriteFields([f]);
  }
}
