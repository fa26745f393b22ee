/** The log reader as it runs: positions advance, fragments accumulate, the view is updated in place. */
module LevelDbReader {
  import opened Domain
  import opened Bytes
  import opened Varint
  import opened LevelDb

  /** `littleUint32`. */
  method LittleUint32(bytes: Data, position: nat) returns (r: nat)
    requires position + 4 <= |bytes|
    ensures r == Unlittle(bytes[position..position + 4])
  {
    ghost var s := bytes[position..position + 4];
    ghost var s1, s2, s3 := s[1..], s[1..][1..], s[1..][1..][1..];
    assert s3[1..] == [] && Unlittle(s3) == s[3];
    assert Unlittle(s2) == s[2] as int + 256 * Unlittle(s3);
    assert Unlittle(s1) == s[1] as int + 256 * Unlittle(s2);
    r := bytes[position] as int + 0x100 * bytes[position + 1] as int + 0x1_0000 * bytes[position + 2] as int
         + 0x100_0000 * bytes[position + 3] as int;
  }

  class LogReader {
    const wanted: Data
    var value: Option<Data>
    var seen: bool

    function Seen(): View
      reads this
    {
      View(value, seen)
    }

    constructor (wanted: Data)
      ensures Seen() == View(None, false) && this.wanted == wanted
    {
      this.wanted := wanted;
      value, seen := None, false;
    }

    /** A length and as many bytes, from a position on. */
    method Chunk(record: Data, start: nat) returns (r: Option<Data>, position: nat)
      requires start <= |record|
      ensures start <= position <= |record|
      ensures match ReadChunk(record[start..])
              case None => r == None
              case Some((data, rest)) => r == Some(data) && rest == record[position..]
    {
      hide ReadVar;
      var size: Option<nat>;
      size, position := ReadVarUint32(record, start);
      if size.None? || size.value > |record| - position { return None, position; }
      r := Some(record[position..position + size.value]);
      assert record[position..][..size.value] == r.value
             && record[position..][size.value..] == record[position + size.value..];
      position := position + size.value;
    }

    method InspectWriteBatch(record: Data)
      modifies this
      ensures Seen() == InspectBatch(record, wanted, old(Seen()))
    {
      hide Unlittle; hide ReadChunk;
      if |record| < 12 { return; }
      var count := LittleUint32(record, 8);
      var position, index := 12, 0;
      while index < count
        invariant index <= count && 12 <= position <= |record|
        invariant InspectOps(record[12..], count, wanted, old(Seen()))
               == InspectOps(record[position..], count - index, wanted, Seen())
      {
        if position >= |record| { return; }
        var tag := record[position];
        assert record[position..][0] == tag && record[position..][1..] == record[position + 1..];
        var key, newValue: Option<Data>;
        key, position := Chunk(record, position + 1);
        if key.None? { return; }
        if tag == 0 {
          if key.value == wanted { value, seen := None, true; }
        } else {
          if tag != 1 { return; }
          newValue, position := Chunk(record, position);
          if newValue.None? { return; }
          if key.value == wanted { value, seen := newValue, true; }
        }
        index := index + 1;
      }
    }

    method InspectLevelDbLog(bytes: Data) returns (r: Result<bool>)
      modifies this
      ensures match InspectLog(bytes, wanted, old(Seen()))
              case Ok(v) => r == Ok(true) && Seen() == v
              case Err(e) => r == Err(e) && Seen() == old(Seen())
    {
      hide InspectBatch;
      if bytes == [] { return Ok(true); }
      if |bytes| > MaxCapture { return Err(LogTooLarge); }
      var fragmented: Data, collecting, position := [], false, 0;
      while position + HeaderBytes <= |bytes|
        invariant Scan(bytes, 0, Scanner([], false, old(Seen())), wanted, MaxCapture)
               == Scan(bytes, position, Scanner(fragmented, collecting, Seen()), wanted, MaxCapture)
        decreases |bytes| - position
      {
        var left := BlockBytes - position % BlockBytes;
        if left < HeaderBytes {
          position := position + left;
          continue;
        }
        var length := Word(bytes[position + 4], bytes[position + 5]);
        var kind := bytes[position + 6];
        if length == 0 && kind == 0 {
          position, collecting, fragmented := position + left, false, [];
          continue;
        }
        if length > left - HeaderBytes || length > |bytes| - position - HeaderBytes { break; }
        var fragment := bytes[position + HeaderBytes..position + HeaderBytes + length];
        position := position + HeaderBytes + length;
        match kind {
          case 1 =>
            fragmented, collecting := [], false;
            InspectWriteBatch(fragment);
          case 2 =>
            fragmented, collecting := fragment, true;
          case 3 =>
            if collecting && |fragmented| + length <= MaxCapture {
              fragmented := fragmented + fragment;
            } else {
              collecting, fragmented := false, [];
            }
          case 4 =>
            if collecting && |fragmented| + length <= MaxCapture {
              fragmented := fragmented + fragment;
              InspectWriteBatch(fragmented);
            }
            collecting, fragmented := false, [];
          case _ =>
            collecting, fragmented := false, [];
        }
      }
      assert Scan(bytes, position, Scanner(fragmented, collecting, Seen()), wanted, MaxCapture).view == Seen();
      r := Ok(true);
    }
  }
}
