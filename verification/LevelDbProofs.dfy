/** A log that was written is read back: every batch, in order, whole. */
module LevelDbProofs {
  import opened Domain
  import opened Bytes
  import opened Varint
  import opened LevelDb

  // ----- batches -----

  lemma ReadChunkOfVar(data: Data, rest: Data)
    requires |data| < 0x1_0000_0000
    ensures ReadChunk(Var(|data|) + (data + rest)) == Some((data, rest))
  {
    ReadVarOfVar(|data|, data + rest);
    assert (data + rest)[..|data|] == data && (data + rest)[|data|..] == rest;
  }

  lemma PutIsInspected(key: Data, value: Data, more: Data, n: nat, wanted: Data, v: View)
    requires |key| < 0x1_0000_0000 && |value| < 0x1_0000_0000 && 0 < n
    ensures InspectOps(WriteOp(Put(key, value)) + more, n, wanted, v)
            == InspectOps(more, n - 1, wanted, if key == wanted then View(Some(value), true) else v)
  {
    hide ReadVar; hide Var; hide ReadChunk;
    var s := WriteOp(Put(key, value)) + more;
    assert s == [1] + (Var(|key|) + (key + (Var(|value|) + (value + more))));
    assert s[1..] == Var(|key|) + (key + (Var(|value|) + (value + more)));
    ReadChunkOfVar(key, Var(|value|) + (value + more));
    ReadChunkOfVar(value, more);
  }

  lemma DeleteIsInspected(key: Data, more: Data, n: nat, wanted: Data, v: View)
    requires |key| < 0x1_0000_0000 && 0 < n
    ensures InspectOps(WriteOp(Delete(key)) + more, n, wanted, v)
            == InspectOps(more, n - 1, wanted, if key == wanted then View(None, true) else v)
  {
    hide ReadVar; hide Var; hide ReadChunk;
    var s := WriteOp(Delete(key)) + more;
    assert s == [0] + (Var(|key|) + (key + more));
    assert s[1..] == Var(|key|) + (key + more);
    ReadChunkOfVar(key, more);
  }

  lemma {:induction false} InspectOpsReplays(ops: seq<Op>, wanted: Data, v: View)
    requires BatchFits(ops)
    ensures InspectOps(WriteOps(ops), |ops|, wanted, v) == Replay(ops, wanted, v)
  {
    hide WriteOp; hide ReadChunk;
    if ops != [] {
      var op, more := ops[0], WriteOps(ops[1..]);
      match op {
        case Put(key, value) => PutIsInspected(key, value, more, |ops|, wanted, v);
        case Delete(key) => DeleteIsInspected(key, more, |ops|, wanted, v);
      }
      var next := if op.key != wanted then v else if op.Put? then View(Some(op.value), true) else View(None, true);
      InspectOpsReplays(ops[1..], wanted, next);
    }
  }

  /** Inspecting a written batch has the effect of its operations. */
  lemma BatchReplays(sequence: nat, ops: seq<Op>, wanted: Data, v: View)
    requires BatchFits(ops)
    ensures InspectBatch(WriteBatch(sequence, ops), wanted, v) == Replay(ops, wanted, v)
  {
    var s := WriteBatch(sequence, ops);
    assert s[8..12] == Little(|ops|, 4) && s[12..] == WriteOps(ops);
    assert Pow256(4) == 0x1_0000_0000 by {
      assert Pow256(1) == 256 && Pow256(2) == 0x1_0000 && Pow256(3) == 0x100_0000;
    }
    UnlittleOfLittle(|ops|, 4);
    InspectOpsReplays(ops, wanted, v);
  }

  // ----- the log -----

  /** `piece` lies in the file at a position. */
  predicate At(bytes: Data, position: nat, piece: Data)
  {
    position + |piece| <= |bytes| && bytes[position..position + |piece|] == piece
  }

  lemma AtSplit(bytes: Data, position: nat, a: Data, b: Data)
    requires At(bytes, position, a + b)
    ensures At(bytes, position, a) && At(bytes, position + |a|, b)
  {
    var s := bytes[position..position + |a + b|];
    assert s[..|a|] == bytes[position..position + |a|] && s[|a|..] == bytes[position + |a|..position + |a| + |b|];
    assert (a + b)[..|a|] == a && (a + b)[|a|..] == b;
  }

  /** The fields of a physical record where the scanner looks for them. */
  lemma PhysicalFields(bytes: Data, position: nat, crc: Data -> nat, kind: byte, data: Data)
    requires |data| < BlockBytes && At(bytes, position, Physical(crc, kind, data))
    ensures Word(bytes[position + 4], bytes[position + 5]) == |data| && bytes[position + 6] == kind
    ensures bytes[position + HeaderBytes..position + HeaderBytes + |data|] == data
  {
    var sum := Little(crc([kind] + data), 4);
    var s := Physical(crc, kind, data);
    assert s == sum + Little(|data|, 2) + [kind] + data;
    assert s[4] == Little(|data|, 2)[0] && s[5] == Little(|data|, 2)[1] && s[6] == kind && s[7..] == data;
    assert bytes[position..position + |s|][7..] == bytes[position + 7..position + |s|];
    assert forall i :: 0 <= i < |s| ==> bytes[position + i] == s[i];
    TwoBytes(|data|);
  }

  lemma TwoBytes(n: nat)
    requires n < BlockBytes
    ensures Word(Little(n, 2)[0], Little(n, 2)[1]) == n
  {
    assert Little(n, 2) == [n % 256] + ([n / 256 % 256] + Little(n / 256 / 256, 0));
  }

  /** One physical record is accepted and passed. */
  lemma ScanPhysical(bytes: Data, position: nat, crc: Data -> nat, kind: byte, data: Data, c: Scanner, wanted: Data,
                     cap: int)
    requires At(bytes, position, Physical(crc, kind, data)) && kind != 0
    requires HeaderBytes + |data| <= BlockBytes - position % BlockBytes
    ensures Scan(bytes, position, c, wanted, cap)
            == Scan(bytes, position + HeaderBytes + |data|, Accept(c, kind, data, wanted, cap), wanted, cap)
  {
    hide Accept;
    PhysicalFields(bytes, position, crc, kind, data);
  }

  lemma OffsetAfter(position: nat, n: nat)
    ensures (position + n) % BlockBytes == (position % BlockBytes + n) % BlockBytes
  {
    assert position == BlockBytes * (position / BlockBytes) + position % BlockBytes;
  }

  /** The scanner after a whole record. */
  function Whole(c: Scanner, data: Data, first: bool, wanted: Data): Scanner
  {
    Scanner([], false, InspectBatch(if first then data else c.fragments + data, wanted, c.view))
  }

  lemma AcceptEnd(c: Scanner, data: Data, first: bool, wanted: Data, cap: int)
    requires first || (c.collecting && |c.fragments| + |data| <= cap)
    ensures Accept(c, if first then 1 else 4, data, wanted, cap) == Whole(c, data, first, wanted)
  {
  }

  lemma AcceptPart(c: Scanner, data: Data, first: bool, wanted: Data, cap: int)
    requires first || (c.collecting && |c.fragments| + |data| <= cap)
    ensures Accept(c, if first then 2 else 3, data, wanted, cap)
            == Scanner(if first then data else c.fragments + data, true, c.view)
  {
  }

  /** What is laid first: a trailer, the whole rest of the record, or a fragment that fills the block. */
  lemma LayFrom(crc: Data -> nat, offset: nat, data: Data, first: bool)
    requires offset < BlockBytes
    ensures var left := BlockBytes - offset;
            Lay(crc, offset, data, first)
            == if left < HeaderBytes then Zeros(left) + Lay(crc, 0, data, first)
               else
                 var room := left - HeaderBytes;
                 if |data| <= room then Physical(crc, if first then 1 else 4, data)
                 else Physical(crc, if first then 2 else 3, data[..room]) + Lay(crc, 0, data[room..], false)
  {
    hide Physical; hide Zeros;
  }

  /** One record, however fragmented, is put together and inspected. */
  lemma {:induction false} ScanLay(bytes: Data, position: nat, crc: Data -> nat, data: Data, first: bool, c: Scanner,
                                   wanted: Data, cap: int)
    requires At(bytes, position, Lay(crc, position % BlockBytes, data, first))
    requires first || (c.collecting && |c.fragments| + |data| <= cap)
    requires first ==> |data| <= cap
    ensures var s := Lay(crc, position % BlockBytes, data, first);
            Scan(bytes, position, c, wanted, cap)
              == Scan(bytes, position + |s|, Whole(c, data, first, wanted), wanted, cap)
    decreases |data|, if position % BlockBytes >= BlockBytes - HeaderBytes then 1 else 0
  {
    hide Physical; hide InspectBatch; hide Scan; hide At; hide Accept; hide Zeros; hide Lay;
    var offset := position % BlockBytes;
    var left := BlockBytes - offset;
    LayFrom(crc, offset, data, first);
    if left < HeaderBytes {
      var rest := Lay(crc, 0, data, first);
      AtSplit(bytes, position, Zeros(left), rest);
      OffsetAfter(position, left);
      LayIsLong(crc, 0, data, first);
      SkipTrailer(bytes, position, rest, c, wanted, cap);
      ScanLay(bytes, position + left, crc, data, first, c, wanted, cap);
    } else {
      var room := left - HeaderBytes;
      if |data| <= room {
        ScanPhysical(bytes, position, crc, if first then 1 else 4, data, c, wanted, cap);
        AcceptEnd(c, data, first, wanted, cap);
      } else {
        var kind := if first then 2 else 3;
        var rest := Lay(crc, 0, data[room..], false);
        AtSplit(bytes, position, Physical(crc, kind, data[..room]), rest);
        ScanPhysical(bytes, position, crc, kind, data[..room], c, wanted, cap);
        OffsetAfter(position, left);
        var d := Accept(c, kind, data[..room], wanted, cap);
        AcceptPart(c, data[..room], first, wanted, cap);
        assert data[..room] + data[room..] == data;
        assert d.fragments + data[room..] == if first then data else c.fragments + data;
        ScanLay(bytes, position + left, crc, data[room..], false, d, wanted, cap);
      }
    }
  }

  lemma LayIsLong(crc: Data -> nat, offset: nat, data: Data, first: bool)
    requires offset <= BlockBytes - HeaderBytes
    ensures HeaderBytes <= |Lay(crc, offset, data, first)|
  {
  }

  lemma SkipTrailer(bytes: Data, position: nat, rest: Data, c: Scanner, wanted: Data, cap: int)
    requires BlockBytes - position % BlockBytes < HeaderBytes <= |rest|
    requires At(bytes, position + (BlockBytes - position % BlockBytes), rest)
    ensures Scan(bytes, position, c, wanted, cap)
            == Scan(bytes, position + (BlockBytes - position % BlockBytes), c, wanted, cap)
  {
  }

  /** Every record of a log is inspected once, in order. */
  lemma {:induction false} ScanLayAll(bytes: Data, position: nat, crc: Data -> nat, records: seq<Data>, v: View,
                                      wanted: Data, cap: int)
    requires At(bytes, position, LayAll(crc, position % BlockBytes, records)) && |bytes| <= cap
    ensures var s := LayAll(crc, position % BlockBytes, records);
            Scan(bytes, position, Scanner([], false, v), wanted, cap)
            == Scan(bytes, position + |s|, Scanner([], false, InspectAll(records, wanted, v)), wanted, cap)
    decreases |records|
  {
    hide Scan; hide InspectBatch; hide Lay; hide At;
    if records != [] {
      var s := Lay(crc, position % BlockBytes, records[0], true);
      var rest := LayAll(crc, (position % BlockBytes + |s|) % BlockBytes, records[1..]);
      AtSplit(bytes, position, s, rest);
      AtFits(bytes, position, s);
      ScanLay(bytes, position, crc, records[0], true, Scanner([], false, v), wanted, cap);
      OffsetAfter(position, |s|);
      ScanLayAll(bytes, position + |s|, crc, records[1..], InspectBatch(records[0], wanted, v), wanted, cap);
    }
  }

  lemma AtFits(bytes: Data, position: nat, piece: Data)
    requires At(bytes, position, piece)
    ensures |piece| <= |bytes|
  {
  }

  /** Zeros after the last record, as a preallocated file has them, change nothing. */
  lemma {:induction false} ScanZeros(bytes: Data, position: nat, v: View, wanted: Data, cap: int)
    requires position <= |bytes| && forall i :: position <= i < |bytes| ==> bytes[i] == 0
    ensures Scan(bytes, position, Scanner([], false, v), wanted, cap) == Scanner([], false, v)
    decreases |bytes| - position
  {
    if position + HeaderBytes <= |bytes| {
      var left := BlockBytes - position % BlockBytes;
      if position + left <= |bytes| {
        ScanZeros(bytes, position + left, v, wanted, cap);
      }
    }
  }

  /**
   Reading a log file gives what replaying all its batches gives: for any records, any
   checksums, any fragmentation and any zeros at the end, in a file of up to 64 MiB.
   */
  lemma LogIsReadBack(crc: Data -> nat, records: seq<Data>, zeros: nat, wanted: Data, v: View)
    requires |LayAll(crc, 0, records)| + zeros <= MaxCapture
    ensures InspectLog(LayAll(crc, 0, records) + Zeros(zeros), wanted, v) == Ok(InspectAll(records, wanted, v))
  {
    hide Scan;
    var log := LayAll(crc, 0, records);
    var bytes := log + Zeros(zeros);
    if bytes == [] {
      NoRecords(crc, records);
    } else {
      assert bytes[..|log|] == log;
      ScanLayAll(bytes, 0, crc, records, v, wanted, MaxCapture);
      ScanZeros(bytes, |log|, InspectAll(records, wanted, v), wanted, MaxCapture);
    }
  }

  lemma NoRecords(crc: Data -> nat, records: seq<Data>)
    requires LayAll(crc, 0, records) == []
    ensures records == []
  {
    if records != [] { LayIsLong(crc, 0, records[0], true); }
  }

  // ----- batches through the log -----

  datatype Batch = Batch(sequence: nat, ops: seq<Op>)

  function Written(batches: seq<Batch>): seq<Data>
  {
    if batches == [] then [] else [WriteBatch(batches[0].sequence, batches[0].ops)] + Written(batches[1..])
  }

  function AllOps(batches: seq<Batch>): seq<Op>
  {
    if batches == [] then [] else batches[0].ops + AllOps(batches[1..])
  }

  lemma {:induction false} ReplayAppend(a: seq<Op>, b: seq<Op>, wanted: Data, v: View)
    ensures Replay(a + b, wanted, v) == Replay(b, wanted, Replay(a, wanted, v))
  {
    if a == [] {
      assert a + b == b;
    } else {
      assert (a + b)[0] == a[0] && (a + b)[1..] == a[1..] + b;
      var next := if a[0].key != wanted then v else if a[0].Put? then View(Some(a[0].value), true)
        else View(None, true);
      ReplayAppend(a[1..], b, wanted, next);
    }
  }

  lemma {:induction false} InspectAllReplays(batches: seq<Batch>, wanted: Data, v: View)
    requires forall i :: 0 <= i < |batches| ==> BatchFits(batches[i].ops)
    ensures InspectAll(Written(batches), wanted, v) == Replay(AllOps(batches), wanted, v)
  {
    hide InspectBatch; hide WriteBatch; hide BatchFits;
    if batches != [] {
      BatchReplays(batches[0].sequence, batches[0].ops, wanted, v);
      InspectAllReplays(batches[1..], wanted, Replay(batches[0].ops, wanted, v));
      ReplayAppend(batches[0].ops, AllOps(batches[1..]), wanted, v);
      assert Written(batches)[1..] == Written(batches[1..]);
    }
  }

  /** The reader's answer for a key is the last write of it in the whole log. */
  lemma LogReplays(crc: Data -> nat, batches: seq<Batch>, zeros: nat, wanted: Data, v: View)
    requires forall i :: 0 <= i < |batches| ==> BatchFits(batches[i].ops)
    requires |LayAll(crc, 0, Written(batches))| + zeros <= MaxCapture
    ensures InspectLog(LayAll(crc, 0, Written(batches)) + Zeros(zeros), wanted, v)
            == Ok(Replay(AllOps(batches), wanted, v))
  {
    hide InspectLog; hide LayAll; hide InspectAll; hide Replay; hide BatchFits;
    LogIsReadBack(crc, Written(batches), zeros, wanted, v);
    InspectAllReplays(batches, wanted, v);
  }

  // ----- the size guards -----

  /** For any file at all, a bound on collected fragments of at least the file's size is never hit. */
  lemma {:induction false} FragmentsNeverDropped(bytes: Data, position: nat, c: Scanner, wanted: Data, cap: int,
                                                 other: int)
    requires |c.fragments| <= position && |bytes| <= cap && |bytes| <= other
    ensures Scan(bytes, position, c, wanted, cap) == Scan(bytes, position, c, wanted, other)
    decreases |bytes| - position
  {
    hide InspectBatch;
    if position + HeaderBytes <= |bytes| {
      var left := BlockBytes - position % BlockBytes;
      var length := Word(bytes[position + 4], bytes[position + 5]);
      var kind := bytes[position + 6];
      if left < HeaderBytes {
        FragmentsNeverDropped(bytes, position + left, c, wanted, cap, other);
      } else if length == 0 && kind == 0 {
        FragmentsNeverDropped(bytes, position + left, Scanner([], false, c.view), wanted, cap, other);
      } else if length <= left - HeaderBytes && length <= |bytes| - position - HeaderBytes {
        var start := position + HeaderBytes;
        var data := bytes[start..start + length];
        FragmentsNeverDropped(bytes, start + length, Accept(c, kind, data, wanted, cap), wanted, cap, other);
      }
    }
  }

  // ----- torn logs -----

  /** What is left of the file from a position on is a proper prefix of `piece`. */
  predicate Torn(bytes: Data, position: nat, piece: Data)
  {
    position <= |bytes| < position + |piece| && bytes[position..] == piece[..|bytes| - position]
  }

  lemma TornSplit(bytes: Data, position: nat, a: Data, b: Data)
    requires Torn(bytes, position, a + b)
    ensures if |bytes| < position + |a| then Torn(bytes, position, a)
            else At(bytes, position, a) && Torn(bytes, position + |a|, b)
  {
    var n := |bytes| - position;
    if n < |a| {
      assert (a + b)[..n] == a[..n];
    } else {
      assert (a + b)[..n][..|a|] == a && (a + b)[..n][|a|..] == b[..n - |a|];
      assert bytes[position..][..|a|] == bytes[position..position + |a|];
      assert bytes[position..][|a|..] == bytes[position + |a|..];
    }
  }

  /** A physical record that is not whole ends the scan. */
  lemma ScanTornPhysical(bytes: Data, position: nat, crc: Data -> nat, kind: byte, data: Data, c: Scanner, wanted: Data,
                         cap: int)
    requires Torn(bytes, position, Physical(crc, kind, data)) && kind != 0
    requires HeaderBytes + |data| <= BlockBytes - position % BlockBytes
    ensures Scan(bytes, position, c, wanted, cap) == c
  {
    if position + HeaderBytes <= |bytes| {
      var s := Physical(crc, kind, data);
      assert s == Little(crc([kind] + data), 4) + Little(|data|, 2) + [kind] + data;
      assert s[4] == Little(|data|, 2)[0] && s[5] == Little(|data|, 2)[1] && s[6] == kind;
      assert forall i :: position <= i < |bytes| ==> bytes[i] == bytes[position..][i - position] == s[i - position];
      TwoBytes(|data|);
    }
  }

  /** A record that is not whole is not inspected. */
  lemma {:induction false} ScanTornLay(bytes: Data, position: nat, crc: Data -> nat, data: Data, first: bool,
                                       c: Scanner,
                                       wanted: Data, cap: int)
    requires Torn(bytes, position, Lay(crc, position % BlockBytes, data, first))
    requires first || (c.collecting && |c.fragments| + |data| <= cap)
    requires first ==> |data| <= cap
    ensures Scan(bytes, position, c, wanted, cap).view == c.view
    decreases |data|, if position % BlockBytes >= BlockBytes - HeaderBytes then 1 else 0
  {
    hide Physical; hide InspectBatch; hide Scan; hide At; hide Accept; hide Zeros; hide Torn;
    var offset := position % BlockBytes;
    var left := BlockBytes - offset;
    if left < HeaderBytes {
      var rest := Lay(crc, 0, data, first);
      TornSplit(bytes, position, Zeros(left), rest);
      OffsetAfter(position, left);
      TornTrailer(bytes, position, c, wanted, cap);
      if position + left <= |bytes| && position + HeaderBytes <= |bytes| {
        ScanTornLay(bytes, position + left, crc, data, first, c, wanted, cap);
      }
    } else {
      var room := left - HeaderBytes;
      if |data| <= room {
        ScanTornPhysical(bytes, position, crc, if first then 1 else 4, data, c, wanted, cap);
      } else {
        var kind := if first then 2 else 3;
        var rest := Lay(crc, 0, data[room..], false);
        var piece := Physical(crc, kind, data[..room]);
        TornSplit(bytes, position, piece, rest);
        if |bytes| < position + |piece| {
          ScanTornPhysical(bytes, position, crc, kind, data[..room], c, wanted, cap);
        } else {
          ScanPhysical(bytes, position, crc, kind, data[..room], c, wanted, cap);
          OffsetAfter(position, left);
          AcceptPart(c, data[..room], first, wanted, cap);
          var d := Accept(c, kind, data[..room], wanted, cap);
          ScanTornLay(bytes, position + left, crc, data[room..], false, d, wanted, cap);
        }
      }
    }
  }

  lemma TornTrailer(bytes: Data, position: nat, c: Scanner, wanted: Data, cap: int)
    requires BlockBytes - position % BlockBytes < HeaderBytes
    ensures Scan(bytes, position, c, wanted, cap)
            == if position + HeaderBytes > |bytes| then c
               else Scan(bytes, position + (BlockBytes - position % BlockBytes), c, wanted, cap)
  {
  }

  /** How many of the records are whole within the first `n` bytes of their log. */
  function WholeRecords(crc: Data -> nat, offset: nat, records: seq<Data>, n: nat): (k: nat)
    requires offset < BlockBytes
    ensures k <= |records|
    decreases |records|
  {
    if records == [] then 0
    else
      var s := Lay(crc, offset, records[0], true);
      if n < |s| then 0 else 1 + WholeRecords(crc, (offset + |s|) % BlockBytes, records[1..], n - |s|)
  }

  lemma {:induction false} ScanTornLog(bytes: Data, position: nat, crc: Data -> nat, records: seq<Data>, v: View,
                                       wanted: Data, cap: int)
    requires position <= |bytes| <= position + |LayAll(crc, position % BlockBytes, records)|
    requires bytes[position..] == LayAll(crc, position % BlockBytes, records)[..|bytes| - position]
    requires forall i :: 0 <= i < |records| ==> |records[i]| <= cap
    ensures Scan(bytes, position, Scanner([], false, v), wanted, cap).view
            == InspectAll(records[..WholeRecords(crc, position % BlockBytes, records, |bytes| - position)], wanted, v)
    decreases |records|
  {
    hide Scan; hide InspectBatch; hide Lay; hide At; hide Torn;
    var k := WholeRecords(crc, position % BlockBytes, records, |bytes| - position);
    if records == [] {
      NothingLeft(bytes, position, Scanner([], false, v), wanted, cap);
    } else {
      var s := Lay(crc, position % BlockBytes, records[0], true);
      var rest := LayAll(crc, (position % BlockBytes + |s|) % BlockBytes, records[1..]);
      PrefixSplits(bytes, position, s, rest);
      if |bytes| - position < |s| {
        ScanTornLay(bytes, position, crc, records[0], true, Scanner([], false, v), wanted, cap);
        assert records[..0] == [];
      } else {
        ScanLay(bytes, position, crc, records[0], true, Scanner([], false, v), wanted, cap);
        OffsetAfter(position, |s|);
        ScanTornLog(bytes, position + |s|, crc, records[1..], InspectBatch(records[0], wanted, v), wanted, cap);
        assert records[..k][1..] == records[1..][..k - 1];
      }
    }
  }

  lemma NothingLeft(bytes: Data, position: nat, c: Scanner, wanted: Data, cap: int)
    requires position == |bytes|
    ensures Scan(bytes, position, c, wanted, cap) == c
  {
  }

  lemma PrefixSplits(bytes: Data, position: nat, a: Data, b: Data)
    requires position <= |bytes| <= position + |a + b| && bytes[position..] == (a + b)[..|bytes| - position]
    ensures if |bytes| - position < |a| then Torn(bytes, position, a)
            else At(bytes, position, a) && bytes[position + |a|..] == b[..|bytes| - position - |a|]
  {
    var n := |bytes| - position;
    if n < |a| {
      assert (a + b)[..n] == a[..n];
    } else {
      assert (a + b)[..n][..|a|] == a && (a + b)[..n][|a|..] == b[..n - |a|];
      assert bytes[position..][..|a|] == bytes[position..position + |a|];
      assert bytes[position..][|a|..] == bytes[position + |a|..];
    }
  }

  /** A log cut off anywhere, as a crash or a live writer leaves it, reads as the replay of its whole records. */
  lemma TornLogIsAPrefix(crc: Data -> nat, records: seq<Data>, n: nat, wanted: Data, v: View)
    requires n <= |LayAll(crc, 0, records)| && n <= MaxCapture
    requires forall i :: 0 <= i < |records| ==> |records[i]| <= MaxCapture
    ensures InspectLog(LayAll(crc, 0, records)[..n], wanted, v)
            == Ok(InspectAll(records[..WholeRecords(crc, 0, records, n)], wanted, v))
  {
    hide Scan; hide Lay;
    var bytes := LayAll(crc, 0, records)[..n];
    if n == 0 {
      NothingLeft(bytes, 0, Scanner([], false, v), wanted, MaxCapture);
    }
    assert bytes[0..] == bytes;
    ScanTornLog(bytes, 0, crc, records, v, wanted, MaxCapture);
  }
}
