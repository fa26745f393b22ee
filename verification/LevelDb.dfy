/**
 The reader of LevelDB's log files: physical records in 32 KiB blocks, put together into
 write batches, which are replayed for one key. The writer's side follows LevelDB's log format.
 */
module LevelDb {
  import opened Domain
  import opened Bytes
  import opened Varint

  const MaxCapture: int := 0x400_0000
  const BlockBytes: int := 0x8000
  const HeaderBytes: int := 7

  type Data = seq<byte>

  /** What is known about the wanted key: its value, and whether any batch mentioned it. */
  datatype View = View(value: Option<Data>, seen: bool)

  // ----- write batches -----

  datatype Op = Put(key: Data, value: Data) | Delete(key: Data)

  /** The effect of operations on the wanted key, in order. */
  function Replay(ops: seq<Op>, wanted: Data, v: View): View
  {
    if ops == [] then v
    else
      var op := ops[0];
      var next := if op.key != wanted then v else if op.Put? then View(Some(op.value), true) else View(None, true);
      Replay(ops[1..], wanted, next)
  }

  function WriteOp(op: Op): Data
  {
    match op
    case Put(key, value) => [1] + (Var(|key|) + (key + (Var(|value|) + value)))
    case Delete(key) => [0] + (Var(|key|) + key)
  }

  function WriteOps(ops: seq<Op>): Data
  {
    if ops == [] then [] else WriteOp(ops[0]) + WriteOps(ops[1..])
  }

  /** A batch: sequence number, number of operations, operations. */
  function WriteBatch(sequence: nat, ops: seq<Op>): (s: Data)
    ensures |s| >= 12
  {
    Little(sequence, 8) + (Little(|ops|, 4) + WriteOps(ops))
  }

  predicate BatchFits(ops: seq<Op>)
  {
    && |ops| < 0x1_0000_0000
    && forall i :: 0 <= i < |ops| ==> |ops[i].key| < 0x1_0000_0000 && (ops[i].Put? ==> |ops[i].value| < 0x1_0000_0000)
  }

  /** A varint length and as many bytes. */
  function ReadChunk(s: Data): (r: Option<(Data, Data)>)
    ensures r.Some? ==> |r.value.1| < |s|
  {
    match ReadVar(s, 0)
    case None => None
    case Some((n, rest)) => if n > |rest| then None else Some((rest[..n], rest[n..]))
  }

  /** The loop of `inspectWriteBatch` over `n` operations; it stops without complaint at anything malformed. */
  function InspectOps(s: Data, n: nat, wanted: Data, v: View): View
    decreases n
  {
    if n == 0 || s == [] then v
    else
      match ReadChunk(s[1..])
      case None => v
      case Some((key, rest)) =>
        if s[0] == 0 then InspectOps(rest, n - 1, wanted, if key == wanted then View(None, true) else v)
        else if s[0] != 1 then v
        else
          match ReadChunk(rest)
          case None => v
          case Some((value, tail)) =>
            InspectOps(tail, n - 1, wanted, if key == wanted then View(Some(value), true) else v)
  }

  function InspectBatch(record: Data, wanted: Data, v: View): View
  {
    if |record| < 12 then v else InspectOps(record[12..], Unlittle(record[8..12]), wanted, v)
  }

  // ----- physical records -----

  /** The state of `inspectLevelDbLog` between two physical records. */
  datatype Scanner = Scanner(fragments: Data, collecting: bool, view: View)

  /** What one physical record does; `cap` bounds how much is collected. */
  function Accept(c: Scanner, kind: byte, data: Data, wanted: Data, cap: int): Scanner
  {
    match kind
    case 1 => Scanner([], false, InspectBatch(data, wanted, c.view))
    case 2 => Scanner(data, true, c.view)
    case 3 => if c.collecting && |c.fragments| + |data| <= cap then c.(fragments := c.fragments + data)
              else Scanner([], false, c.view)
    case 4 => Scanner([], false, if c.collecting && |c.fragments| + |data| <= cap
                                 then InspectBatch(c.fragments + data, wanted, c.view) else c.view)
    case _ => Scanner([], false, c.view)
  }

  /** A 16-bit length from its two bytes. */
  function Word(low: byte, high: byte): nat { (low as int) + 256 * (high as int) }

  /** The loop of `inspectLevelDbLog` from a position on. */
  function Scan(bytes: Data, position: nat, c: Scanner, wanted: Data, cap: int): Scanner
    decreases |bytes| - position
  {
    if position + HeaderBytes > |bytes| then c
    else
      var left := BlockBytes - position % BlockBytes;
      if left < HeaderBytes then Scan(bytes, position + left, c, wanted, cap)
      else
        var length := Word(bytes[position + 4], bytes[position + 5]);
        var kind := bytes[position + 6];
        if length == 0 && kind == 0 then Scan(bytes, position + left, Scanner([], false, c.view), wanted, cap)
        else if length > left - HeaderBytes || length > |bytes| - position - HeaderBytes then c
        else
          var start := position + HeaderBytes;
          Scan(bytes, start + length, Accept(c, kind, bytes[start..start + length], wanted, cap), wanted, cap)
  }

  /** `inspectLevelDbLog` on the contents of a file. */
  function InspectLog(bytes: Data, wanted: Data, v: View): Result<View>
  {
    if bytes == [] then Ok(v)
    else if |bytes| > MaxCapture then Err(LogTooLarge)
    else Ok(Scan(bytes, 0, Scanner([], false, v), wanted, MaxCapture).view)
  }

  // ----- the log writer -----

  function Zeros(n: nat): (s: Data)
    ensures |s| == n && forall i :: 0 <= i < n ==> s[i] == 0
  {
    seq(n, i => 0)
  }

  /** A physical record: checksum, length, type, data. */
  function Physical(crc: Data -> nat, kind: byte, data: Data): (s: Data)
    ensures |s| == HeaderBytes + |data|
  {
    Little(crc([kind] + data), 4) + (Little(|data|, 2) + ([kind] + data))
  }

  /** Lays one record out from an offset within a block: zero trailer, FULL, or FIRST, MIDDLE and LAST. */
  function Lay(crc: Data -> nat, offset: nat, data: Data, first: bool): (s: Data)
    requires offset < BlockBytes
    ensures |data| <= |s|
    decreases |data|, if offset >= BlockBytes - HeaderBytes then 1 else 0
  {
    var left := BlockBytes - offset;
    if left < HeaderBytes then Zeros(left) + Lay(crc, 0, data, first)
    else
      var room := left - HeaderBytes;
      if |data| <= room then Physical(crc, if first then 1 else 4, data)
      else Physical(crc, if first then 2 else 3, data[..room]) + Lay(crc, 0, data[room..], false)
  }

  function LayAll(crc: Data -> nat, offset: nat, records: seq<Data>): Data
    requires offset < BlockBytes
    decreases |records|
  {
    if records == [] then []
    else
      var s := Lay(crc, offset, records[0], true);
      s + LayAll(crc, (offset + |s|) % BlockBytes, records[1..])
  }

  /** Replays whole records in order. */
  function InspectAll(records: seq<Data>, wanted: Data, v: View): View
  {
    if records == [] then v else InspectAll(records[1..], wanted, InspectBatch(records[0], wanted, v))
  }
}
