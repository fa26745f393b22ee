/**
 Which of the inputs the reader accepts the writer would have written: those whose compounds list
 their keys in order.
 */
module NbtCanonical {
  import opened Domain
  import opened Bytes
  import opened Nbt
  import opened NbtRoundTrip

  /** Every compound in the tag at the front of `s` lists its keys in strictly ascending order. */
  predicate KeysAscend(s: seq<byte>)
    decreases |s|, 0, 0
  {
    s != [] &&
    match s[0]
    case 9 =>
      (match ReadLength(s[1..])
       case Ok((n, items)) => ItemsAscend(items, n)
       case Err(_) => false)
    case 10 =>
      (match ReadLength(s[1..])
       case Ok((n, fields)) => FieldsAscend(fields, n, None)
       case Err(_) => false)
    case _ => true
  }

  predicate ItemsAscend(s: seq<byte>, n: nat)
    decreases |s|, 1, n
  {
    n == 0 ||
    (KeysAscend(s) &&
     match ReadTag(s)
     case Ok((_, rest)) => ItemsAscend(rest, n - 1)
     case Err(_) => false)
  }

  /** The next `n` fields, whose keys must all come after `last`. */
  predicate FieldsAscend(s: seq<byte>, n: nat, last: Option<Text>)
    decreases |s|, 1, n
  {
    n == 0 ||
    match ReadText(s)
    case Err(_) => false
    case Ok((key, rest)) =>
      (last.Some? ==> Less(last.value, key)) && KeysAscend(rest) &&
      match ReadTag(rest)
      case Ok((_, tail)) => FieldsAscend(tail, n - 1, Some(key))
      case Err(_) => false
  }

  // ----- what was read is what would be written -----

  lemma ReadNatWrites(s: seq<byte>, k: nat)
    requires ReadNat(s, k).Ok?
    ensures s == Little(ReadNat(s, k).value.0, k) + ReadNat(s, k).value.1
  {
    LittleOfUnlittle(s[..k]);
  }

  lemma ReadIntWrites(s: seq<byte>, k: nat)
    requires ReadInt(s, k).Ok?
    ensures s == WriteInt(ReadInt(s, k).value.0, k) + ReadInt(s, k).value.1
  {
    ReadNatWrites(s, k);
    RawOfSigned(ReadNat(s, k).value.0, k);
  }

  lemma ReadTextWrites(s: seq<byte>)
    requires ReadText(s).Ok?
    ensures s == WriteText(ReadText(s).value.0) + ReadText(s).value.1
  {
    ReadNatWrites(s, 4);
    var (text, rest) := ReadText(s).value;
    assert s == Little(|text|, 4) + (text + rest);
  }

  lemma {:induction false} ReadIntsWrites(s: seq<byte>, n: nat)
    requires ReadInts(s, n).Ok?
    ensures s == WriteInts(ReadInts(s, n).value.0) + ReadInts(s, n).value.1
    decreases n
  {
    hide ReadInt; hide WriteInt;
    if n > 0 {
      ReadIntWrites(s, 4);
      var (v, rest) := ReadInt(s, 4).value;
      ReadIntsWrites(rest, n - 1);
      var (vs, tail) := ReadInts(rest, n - 1).value;
      assert ([v] + vs)[1..] == vs;
      assert s == WriteInt(v, 4) + (WriteInts(vs) + tail);
    }
  }

  /** A tag with ascending keys is, byte for byte, what the writer makes of its value. */
  lemma {:induction false} AscendingIsWritten(s: seq<byte>)
    requires ReadTag(s).Ok? && KeysAscend(s)
    ensures s == WriteTag(ReadTag(s).value.0) + ReadTag(s).value.1
    decreases |s|, 0, 0
  {
    hide Little; hide WriteInt; hide Pow256; hide WriteItems; hide WriteFields; hide WriteInts; hide Put;
    hide ItemsAscend;
    hide FieldsAscend; hide ReadInt; hide ReadNat; hide ReadText; hide ReadLength; hide ReadItems; hide ReadFields;
    hide ReadInts; hide Sorted; hide WriteText;
    var kind, body := s[0], s[1..];
    var (t, rest) := ReadTag(s).value;
    assert s == [kind] + body;
    match kind
    case 1 => ReadNatWrites(body, 1); OneByteIsItself(t.b);
    case 2 => ReadIntWrites(body, 2);
    case 3 => ReadIntWrites(body, 4);
    case 4 => ReadIntWrites(body, 8);
    case 5 => ReadNatWrites(body, 4);
    case 6 => ReadNatWrites(body, 8);
    case 7 => ReadTextWrites(body); TextIsLengthAndBytes(t.bytes);
    case 8 => ReadTextWrites(body);
    case 9 =>
      ReadLengthWrites(body);
      var (n, items) := ReadLength(body).value;
      AscendingItemsAreWritten(items, n);
      assert body == Little(n, 4) + WriteItems(t.items) + rest;
    case 10 =>
      ReadLengthWrites(body);
      var (n, fields) := ReadLength(body).value;
      assert Sorted([]) by { NoneSorted(); }
      AscendingFieldsAreWritten(fields, n, [], None);
      assert t.fields[0..] == t.fields;
      assert body == Little(n, 4) + WriteFields(t.fields) + rest;
    case 11 =>
      ReadLengthWrites(body);
      var (n, ints) := ReadLength(body).value;
      ReadIntsWrites(ints, n);
      assert body == Little(n, 4) + WriteInts(t.ints) + rest;
    case _ =>
  }

  lemma OneByteIsItself(b: byte)
    ensures Little(b, 1) == [b]
  {
    assert Little(b, 1) == [b % 256] + Little(b / 256, 0);
  }

  lemma TextIsLengthAndBytes(text: Text)
    ensures WriteText(text) == Little(|text|, 4) + text
  {
  }

  lemma ReadLengthWrites(s: seq<byte>)
    requires ReadLength(s).Ok?
    ensures s == Little(ReadLength(s).value.0, 4) + ReadLength(s).value.1
  {
    ReadNatWrites(s, 4);
  }

  lemma {:induction false} AscendingItemsAreWritten(s: seq<byte>, n: nat)
    requires ReadItems(s, n).Ok? && ItemsAscend(s, n)
    ensures s == WriteItems(ReadItems(s, n).value.0) + ReadItems(s, n).value.1
    decreases |s|, 1, n
  {
    hide ReadTag; hide WriteTag; hide KeysAscend;
    if n > 0 {
      AscendingIsWritten(s);
      var (t, rest) := ReadTag(s).value;
      AscendingItemsAreWritten(rest, n - 1);
      var (ts, tail) := ReadItems(rest, n - 1).value;
      assert ([t] + ts)[1..] == ts;
      assert s == WriteTag(t) + (WriteItems(ts) + tail);
    }
  }

  /** The key of the last field, if there is one. */
  function LastKey(fs: seq<Field>): Option<Text>
  {
    if fs == [] then None else Some(fs[|fs| - 1].key)
  }

  lemma SortedThen(fs: seq<Field>, f: Field)
    requires Sorted(fs) && (fs != [] ==> Less(fs[|fs| - 1].key, f.key))
    ensures Sorted(fs + [f])
  {
    forall i | 0 <= i < |fs|
      ensures Less(fs[i].key, f.key)
    {
      if i < |fs| - 1 { LessIsTransitive(fs[i].key, fs[|fs| - 1].key, f.key); }
    }
  }

  lemma {:induction false} AscendingFieldsAreWritten(s: seq<byte>, n: nat, so_far: seq<Field>, last: Option<Text>)
    requires ReadFields(s, n, so_far).Ok? && FieldsAscend(s, n, last) && Sorted(so_far) && last == LastKey(so_far)
    ensures var (fs, rest) := ReadFields(s, n, so_far).value;
            |fs| == |so_far| + n && so_far <= fs && s == WriteFields(fs[|so_far|..]) + rest
    decreases |s|, 1, n
  {
    hide ReadTag; hide WriteTag; hide KeysAscend; hide ReadText; hide WriteText; hide Put; hide Sorted;
    if n > 0 {
      var (key, more) := ReadText(s).value;
      ReadTextWrites(s);
      AscendingIsWritten(more);
      var (value, tail) := ReadTag(more).value;
      var f := Field(key, value);
      SortedThen(so_far, f);
      PutAppends(so_far, f);
      AscendingFieldsAreWritten(tail, n - 1, so_far + [f], Some(key));
      var (fs, rest) := ReadFields(s, n, so_far).value;
      var mine := fs[|so_far|..];
      assert mine[0] == f && mine[1..] == fs[|so_far| + 1..];
      assert s == WriteText(key) + (WriteTag(value) + (WriteFields(mine[1..]) + rest));
    }
  }

  // ----- what the writer writes has ascending keys -----

  lemma {:induction false} WrittenAscends(t: Tag, rest: seq<byte>)
    requires Valid(t)
    ensures KeysAscend(WriteTag(t) + rest)
    decreases t, 1
  {
    hide Little; hide WriteInt; hide Pow256; hide WriteItems; hide WriteFields; hide WriteInts; hide WriteTag;
    hide Sorted;
    hide ReadLength; hide ItemsAscend; hide FieldsAscend;
    TagSplits(t, rest);
    match t
    case ListTag(items) =>
      LengthThen(|items|, WriteItems(items), rest);
      WrittenItemsAscend(items, rest);
    case CompoundTag(fs) =>
      LengthThen(|fs|, WriteFields(fs), rest);
      WrittenFieldsAscend(fs, rest, None);
    case _ =>
  }

  lemma {:induction false} WrittenItemsAscend(items: seq<Tag>, rest: seq<byte>)
    requires forall i :: 0 <= i < |items| ==> Valid(items[i])
    ensures ItemsAscend(WriteItems(items) + rest, |items|)
    decreases items, 2
  {
    hide WriteTag; hide ReadTag; hide KeysAscend;
    if items != [] {
      var more := WriteItems(items[1..]) + rest;
      assert WriteItems(items) + rest == WriteTag(items[0]) + more;
      WrittenAscends(items[0], more);
      ReadTagOfWrite(items[0], more);
      WrittenItemsAscend(items[1..], rest);
    }
  }

  lemma {:induction false} WrittenFieldsAscend(fs: seq<Field>, rest: seq<byte>, last: Option<Text>)
    requires Sorted(fs) && (last.Some? && fs != [] ==> Less(last.value, fs[0].key))
    requires forall i :: 0 <= i < |fs| ==> |fs[i].key| <= MaxLength && Valid(fs[i].value)
    ensures FieldsAscend(WriteFields(fs) + rest, |fs|, last)
    decreases fs, 2
  {
    hide WriteTag; hide ReadTag; hide KeysAscend; hide ReadText; hide WriteText; hide Valid;
    if fs != [] {
      var f, more := fs[0], WriteFields(fs[1..]) + rest;
      assert WriteFields(fs) + rest == WriteText(f.key) + (WriteTag(f.value) + more);
      ReadTextOfWrite(f.key, WriteTag(f.value) + more);
      WrittenAscends(f.value, more);
      ReadTagOfWrite(f.value, more);
      assert forall i :: 0 <= i < |fs| - 1 ==> fs[1..][i] == fs[i + 1];
      WrittenFieldsAscend(fs[1..], rest, Some(f.key));
    }
  }

  // ----- the codec -----

  /**
   An accepted input is the encoding of its value exactly when it is not empty and every compound
   in it lists its keys in strictly ascending order.
   */
  lemma EncodingIffAscending(s: seq<byte>)
    requires Decode(s).Ok?
    ensures Encode(Decode(s).value) == Ok(s) <==> s != [] && KeysAscend(s[|Header|..])
  {
    hide ReadTag; hide WriteTag; hide KeysAscend; hide Valid; hide TextsFit;
    DecodedIsWritable(s);
    var fields := Decode(s).value;
    if s != [] {
      var body := ReadHeader(s, Header).value;
      assert s[|Header|..] == body;
      var t := CompoundTag(fields);
      assert ReadTag(body) == Ok((t, []));
      ReadTagIsValid(body);
      assert WriteTag(t) + [] == WriteTag(t);
      if KeysAscend(body) { AscendingIsWritten(body); }
      WrittenAscends(t, []);
      assert (Header + WriteTag(t))[|Header|..] == WriteTag(t);
    }
  }

  /** The empty input is accepted as the empty compound, and is the encoding of nothing. */
  lemma EmptyInputIsNoEncoding(fields: seq<Field>)
    ensures Decode([]) == Ok([]) && Encode(fields) != Ok([])
  {
  }
}
