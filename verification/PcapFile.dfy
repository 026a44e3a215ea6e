/** The capture files of one writer: file header, one record per packet, rotation by size.
    Bytes are those given to the compressor; integers are little-endian. */
module PcapFile {
  import opened SppTypes

  const SNAPLEN: nat := 65535
  const U16_LIMIT: nat := 0x1_0000
  const U32_LIMIT: nat := 0x1_0000_0000
  const RECORD_HEADER: nat := 16
  const FILE_HEADER_SIZE: nat := 24

  function U16(n: nat): (r: seq<Byte>)
    requires n < U16_LIMIT
    ensures |r| == 2
  {
    [n % 256, n / 256]
  }

  function U32(n: nat): (r: seq<Byte>)
    requires n < U32_LIMIT
    ensures |r| == 4
  {
    U16(n % U16_LIMIT) + U16(n / U16_LIMIT)
  }

  function Read16(b: seq<Byte>): nat
    requires |b| == 2
  {
    b[0] as int + 256 * (b[1] as int)
  }

  function Read32(b: seq<Byte>): nat
    requires |b| == 4
  {
    Read16(b[..2]) + U16_LIMIT * Read16(b[2..])
  }

  lemma ReadU32(n: nat)
    requires n < U32_LIMIT
    ensures Read32(U32(n)) == n
  {
    assert U32(n)[..2] == U16(n % U16_LIMIT) && U32(n)[2..] == U16(n / U16_LIMIT);
  }

  /** Magic number, version 2.4, no time correction, snapshot length, link type Ethernet. */
  function FileHeader(): (r: seq<Byte>)
    ensures |r| == FILE_HEADER_SIZE
  {
    U32(0xa1b2_c3d4) + U16(2) + U16(4) + U32(0) + U32(0) + U32(SNAPLEN) + U32(1)
  }

  /** A packet as the reader of a file sees it. */
  datatype Record = Record(sec: nat, usec: nat, data: seq<Byte>, len: nat)

  ghost predicate Encodable(r: Record) {
    r.sec < U32_LIMIT && r.usec < U32_LIMIT && r.len < U32_LIMIT && |r.data| <= SNAPLEN
  }

  function RecordHeader(sec: nat, usec: nat, written: nat, len: nat): (b: seq<Byte>)
    requires sec < U32_LIMIT && usec < U32_LIMIT && written < U32_LIMIT && len < U32_LIMIT
    ensures |b| == RECORD_HEADER
  {
    U32(sec) + U32(usec) + U32(written) + U32(len)
  }

  function Encode(r: Record): seq<Byte>
    requires Encodable(r)
  {
    RecordHeader(r.sec, r.usec, |r.data|, r.len) + r.data
  }

  ghost predicate AllEncodable(rs: seq<Record>) { forall i :: 0 <= i < |rs| ==> Encodable(rs[i]) }

  function EncodeAll(rs: seq<Record>): seq<Byte>
    requires AllEncodable(rs)
  {
    if rs == [] then [] else EncodeAll(rs[..|rs| - 1]) + Encode(rs[|rs| - 1])
  }

  // ----- A reader -----

  function ReadRecords(b: seq<Byte>): Option<seq<Record>>
    decreases |b|
  {
    if b == [] then Some([])
    else if |b| < RECORD_HEADER then None
    else
      var n := Read32(b[8..12]);
      if |b| < RECORD_HEADER + n then None
      else
        match ReadRecords(b[RECORD_HEADER + n..])
        case None => None
        case Some(rest) => Some([Record(Read32(b[..4]), Read32(b[4..8]), b[16..16 + n], Read32(b[12..16]))] + rest)
  }

  /** The header of a little-endian file of microsecond stamps in format 2.4, taken without time
      correction, of Ethernet frames cut to 65535 octets. */
  predicate GoodHeader(b: seq<Byte>)
    requires |b| >= FILE_HEADER_SIZE
  {
    && b[..4] == [0xd4, 0xc3, 0xb2, 0xa1]
    && Read16(b[4..6]) == 2 && Read16(b[6..8]) == 4
    && Read32(b[8..12]) == 0 && Read32(b[12..16]) == 0
    && Read32(b[16..20]) == 0xffff && Read32(b[20..24]) == 1
  }

  /** A whole file: the header, then records up to the end. */
  function ReadFile(b: seq<Byte>): Option<seq<Record>> {
    if |b| < FILE_HEADER_SIZE || !GoodHeader(b) then None
    else ReadRecords(b[FILE_HEADER_SIZE..])
  }

  lemma HeaderRead(rest: seq<Byte>)
    ensures GoodHeader(FileHeader() + rest)
  {
    var b := FileHeader() + rest;
    assert b[..4] == U32(0xa1b2_c3d4) && b[4..6] == U16(2) && b[6..8] == U16(4);
    assert b[8..12] == U32(0) && b[12..16] == U32(0) && b[16..20] == U32(SNAPLEN) && b[20..24] == U32(1);
    ReadU32(0);
    ReadU32(SNAPLEN);
    ReadU32(1);
    assert U32(0xa1b2_c3d4) == U16(0xc3d4) + U16(0xa1b2);
  }

  lemma ReadHeader(r: Record, rest: seq<Byte>)
    requires Encodable(r)
    ensures var b := Encode(r) + rest;
            && |b| >= RECORD_HEADER + |r.data|
            && Read32(b[..4]) == r.sec && Read32(b[4..8]) == r.usec
            && Read32(b[8..12]) == |r.data| && Read32(b[12..16]) == r.len
  {
    var b := Encode(r) + rest;
    var h := RecordHeader(r.sec, r.usec, |r.data|, r.len);
    assert b[..4] == h[..4] == U32(r.sec);
    assert b[4..8] == h[4..8] == U32(r.usec);
    assert b[8..12] == h[8..12] == U32(|r.data|);
    assert b[12..16] == h[12..16] == U32(r.len);
    ReadU32(r.sec);
    ReadU32(r.usec);
    ReadU32(|r.data|);
    ReadU32(r.len);
  }

  lemma ReadOne(r: Record, rest: seq<Byte>)
    requires Encodable(r)
    ensures ReadRecords(Encode(r) + rest)
            == match ReadRecords(rest) case None => None case Some(rs) => Some([r] + rs)
  {
    var b := Encode(r) + rest;
    ReadHeader(r, rest);
    assert b[16..16 + |r.data|] == r.data;
    assert b[16 + |r.data|..] == rest;
  }

  lemma Regroup<T>(whole: seq<T>, front: seq<T>, last: seq<T>, rest: seq<T>)
    requires whole == front + last
    ensures whole + rest == front + (last + rest)
  {
  }

  lemma {:induction false} ReadAll(rs: seq<Record>, rest: seq<Byte>, more: seq<Record>)
    requires AllEncodable(rs) && ReadRecords(rest) == Some(more)
    ensures ReadRecords(EncodeAll(rs) + rest) == Some(rs + more)
    decreases |rs|
  {
    if rs == [] {
      assert EncodeAll(rs) + rest == rest && rs + more == more;
    } else {
      var n := |rs| - 1;
      ReadOne(rs[n], rest);
      Regroup(EncodeAll(rs), EncodeAll(rs[..n]), Encode(rs[n]), rest);
      Regroup(rs, rs[..n], [rs[n]], more);
      ReadAll(rs[..n], Encode(rs[n]) + rest, [rs[n]] + more);
    }
  }

  /** A file with header and whole records is read back as those records. */
  lemma ReadBack(rs: seq<Record>)
    requires AllEncodable(rs)
    ensures ReadFile(FileHeader() + EncodeAll(rs)) == Some(rs)
  {
    ReadAll(rs, [], []);
    assert EncodeAll(rs) + [] == EncodeAll(rs);
    assert rs + [] == rs;
    HeaderRead(EncodeAll(rs));
    var b := FileHeader() + EncodeAll(rs);
    assert b[FILE_HEADER_SIZE..] == EncodeAll(rs);
  }

  // ----- The writer -----

  /** A packet of chained segments, and the clock when it is written. */
  datatype Capture = Capture(segments: seq<seq<Byte>>, sec: nat, nsec: nat)

  function Flat(segments: seq<seq<Byte>>): seq<Byte> {
    if segments == [] then [] else segments[0] + Flat(segments[1..])
  }

  /** What a capture file should hold of a packet. */
  function Expected(c: Capture): Record
  {
    var data := Flat(c.segments);
    Record(c.sec % U32_LIMIT, c.nsec / 1000, data[..Min(SNAPLEN, |data|)], |data|)
  }

  /** What the reader of a file can tell of the packet: its length on the wire, all of its octets
      or, exactly if there are more than 65535, the first 65535, and the time to the
      microsecond. */
  ghost predicate Tells(r: Record, c: Capture) {
    && r.len == |Flat(c.segments)|
    && |r.data| <= |Flat(c.segments)| && r.data == Flat(c.segments)[..|r.data|]
    && (|r.data| < r.len <==> |Flat(c.segments)| > 0xffff) && |r.data| <= 0xffff
    && (|r.data| < r.len ==> |r.data| == 0xffff)
    && r.sec == c.sec % U32_LIMIT && r.usec < 1_000_000 && r.usec * 1000 <= c.nsec < r.usec * 1000 + 1000
  }

  lemma ExpectedTells(c: Capture)
    requires Writable(c)
    ensures Tells(Expected(c), c)
  {
  }

  /** Lengths and clock fit the record fields. */
  ghost predicate Writable(c: Capture) {
    |Flat(c.segments)| < U32_LIMIT && c.nsec < 1_000_000_000
  }

  /** The records of one file, without the bytes. */
  function Size(rs: seq<Record>): nat {
    if rs == [] then 0 else Size(rs[..|rs| - 1]) + RECORD_HEADER + |rs[|rs| - 1].data|
  }

  function Concat(files: seq<seq<Record>>): seq<Record> {
    if files == [] then [] else Concat(files[..|files| - 1]) + files[|files| - 1]
  }

  function ExpectedAll(cs: seq<Capture>): seq<Record> {
    seq(|cs|, i requires 0 <= i < |cs| => Expected(cs[i]))
  }

  class Writer {
    /** `fsize_limit`, and the size of the compressor's frame header. */
    const limit: nat
    const frameHeader: nat
    var isOpen: bool
    var fileSize: nat
    var fileNo: nat
    /** The file being written, and the finished ones in `file_no` order. */
    var file: seq<Byte>
    var saved: seq<seq<Byte>>
    /** The records in the file being written and in each finished one. */
    ghost var records: seq<Record>
    ghost var savedRecords: seq<seq<Record>>

    constructor (limit: nat, frameHeader: nat)
      ensures this.limit == limit && this.frameHeader == frameHeader && !isOpen
    {
      this.limit, this.frameHeader := limit, frameHeader;
      isOpen, fileSize, fileNo, file, saved, records, savedRecords := false, 0, 0, [], [], [], [];
    }

    /** Only whole records in every file. */
    ghost predicate Sound()
      reads this
    {
      && |savedRecords| == |saved|
      && forall i :: 0 <= i < |saved| ==>
           AllEncodable(savedRecords[i]) && saved[i] == FileHeader() + EncodeAll(savedRecords[i])
    }

    ghost predicate Valid()
      reads this
    {
      && Sound() && isOpen && fileNo == |saved| + 1
      && AllEncodable(records) && file == FileHeader() + EncodeAll(records)
      && fileSize == frameHeader + Size(records)
    }

    /** Everything written since capture started. */
    ghost function Written(): seq<Record>
      reads this
    {
      Concat(savedRecords) + records
    }

    method OpenFile()
      modifies this`isOpen, this`file, this`records, this`fileSize
      ensures isOpen && file == FileHeader() && records == [] && fileSize == frameHeader
    {
      isOpen, file, records, fileSize := true, FileHeader(), [], frameHeader;
    }

    /** `file_compression_operation` when capture starts. */
    method Start()
      modifies this
      ensures Valid() && saved == [] && records == [] && Written() == []
    {
      fileNo, saved, savedRecords := 1, [], [];
      OpenFile();
      assert file == FileHeader() + EncodeAll([]);
    }

    /** `file_compression_operation` when a file has reached its size. */
    method Roll()
      requires Valid()
      modifies this
      ensures Valid() && Written() == old(Written()) && records == [] && saved == old(saved) + [old(file)]
    {
      saved, savedRecords := saved + [file], savedRecords + [records];
      assert savedRecords[..|savedRecords| - 1] == old(savedRecords);
      fileNo := fileNo + 1;
      OpenFile();
      assert file == FileHeader() + EncodeAll([]);
    }

    /** `file_compression_operation` when capture stops. */
    method Close()
      requires Valid()
      modifies this
      ensures Sound() && !isOpen && fileNo == |saved| && Concat(savedRecords) == old(Written()) && saved == old(saved) + [old(file)]
    {
      saved, savedRecords := saved + [file], savedRecords + [records];
      assert savedRecords[..|savedRecords| - 1] == old(savedRecords);
      isOpen := false;
    }

    /** The segment loop of `compress_file_packet`: copies at most `length` bytes of the chain. */
    method WriteSegments(segments: seq<seq<Byte>>, length: nat)
      requires length <= |Flat(segments)|
      modifies this`file, this`fileSize
      ensures file == old(file) + Flat(segments)[..length] && fileSize == old(fileSize) + length
    {
      var remaining := length;
      var k := 0;
      while k < |segments| && remaining > 0
        invariant 0 <= k <= |segments| && 0 <= remaining <= length
        invariant remaining <= |Flat(segments[k..])|
        invariant Flat(segments)[..length] == Flat(segments)[..length - remaining] + Flat(segments[k..])[..remaining]
        invariant file == old(file) + Flat(segments)[..length - remaining]
        invariant fileSize == old(fileSize) + length - remaining
      {
        var n := Min(|segments[k]|, remaining);
        ghost var here, rest := segments[k], Flat(segments[k + 1..]);
        assert segments[k..][1..] == segments[k + 1..];
        assert Flat(segments[k..]) == here + rest;
        Pieces(Flat(segments), length, remaining, here, rest, n);
        file := file + segments[k][..n];
        k := k + 1;
        remaining := remaining - n;
        fileSize := fileSize + n;
      }
      assert k == |segments| ==> Flat(segments[k..]) == [];
    }

    /** One record in the open file. */
    method WriteRecord(c: Capture)
      requires Writable(c) && Valid()
      modifies this
      ensures Valid() && records == old(records) + [Expected(c)]
      ensures saved == old(saved) && savedRecords == old(savedRecords)
      ensures fileSize <= old(fileSize) + RECORD_HEADER + SNAPLEN
    {
      var length := |Flat(c.segments)|;
      var writeLength := Min(SNAPLEN, length);
      ghost var r, base := Expected(c), file;
      file := file + RecordHeader(c.sec % U32_LIMIT, c.nsec / 1000, writeLength, length);
      fileSize := fileSize + RECORD_HEADER;
      WriteSegments(c.segments, writeLength);
      assert file == base + Encode(r);
      Appended(records, r, base);
      records := records + [r];
    }

    /** `compress_file_packet`.  The packet is lost if no file is open. */
    method WritePacket(c: Capture)
      requires Writable(c) && (isOpen ==> Valid())
      modifies this
      ensures isOpen == old(isOpen)
      ensures isOpen ==> Valid() && Written() == old(Written()) + [Expected(c)]
      ensures isOpen ==> fileSize <= Max(limit, frameHeader) + RECORD_HEADER + SNAPLEN
      ensures isOpen ==> saved == if old(fileSize) > limit then old(saved) + [old(file)] else old(saved)
      ensures !isOpen ==> file == old(file) && saved == old(saved) && savedRecords == old(savedRecords)
    {
      if !isOpen {
        return;
      }
      if fileSize > limit {
        Roll();
      }
      ghost var before := records;
      WriteRecord(c);
      assert Concat(savedRecords) + (before + [Expected(c)]) == (Concat(savedRecords) + before) + [Expected(c)];
    }

    /** A capture from start to stop: the files, read back in order of their number, hold
        exactly the packets, in order, each cut to the snapshot length, none split over files. */
    method CaptureAll(cs: seq<Capture>)
      requires forall i :: 0 <= i < |cs| ==> Writable(cs[i])
      modifies this
      ensures !isOpen && |savedRecords| == |saved| == fileNo
      ensures forall i :: 0 <= i < |saved| ==> ReadFile(saved[i]) == Some(savedRecords[i])
      ensures Concat(savedRecords) == ExpectedAll(cs) && |ExpectedAll(cs)| == |cs|
      ensures forall i :: 0 <= i < |cs| ==> Tells(ExpectedAll(cs)[i], cs[i])
    {
      Start();
      var i := 0;
      while i < |cs|
        invariant i <= |cs| && Valid() && Written() == ExpectedAll(cs[..i])
        modifies this
      {
        WritePacket(cs[i]);
        ExpectedNext(cs, i);
        i := i + 1;
      }
      assert cs[..|cs|] == cs;
      Close();
      ReadBackSaved();
      forall k | 0 <= k < |cs| ensures Tells(ExpectedAll(cs)[k], cs[k]) {
        ExpectedTells(cs[k]);
      }
    }

    lemma ReadBackSaved()
      requires Sound()
      ensures forall i :: 0 <= i < |saved| ==> ReadFile(saved[i]) == Some(savedRecords[i])
    {
      forall i | 0 <= i < |saved| ensures ReadFile(saved[i]) == Some(savedRecords[i]) {
        ReadBack(savedRecords[i]);
      }
    }
  }

  lemma ExpectedNext(cs: seq<Capture>, i: nat)
    requires i < |cs|
    ensures ExpectedAll(cs[..i + 1]) == ExpectedAll(cs[..i]) + [Expected(cs[i])]
  {
  }

  lemma Appended(rs: seq<Record>, r: Record, base: seq<Byte>)
    requires AllEncodable(rs) && Encodable(r) && base == FileHeader() + EncodeAll(rs)
    ensures AllEncodable(rs + [r]) && base + Encode(r) == FileHeader() + EncodeAll(rs + [r])
    ensures Size(rs + [r]) == Size(rs) + RECORD_HEADER + |r.data|
  {
    assert (rs + [r])[..|rs|] == rs;
    assert base + Encode(r) == FileHeader() + (EncodeAll(rs) + Encode(r));
  }

  /** One segment further in the copy of a chain. */
  lemma Pieces(all: seq<Byte>, length: nat, remaining: nat, here: seq<Byte>, rest: seq<Byte>, n: nat)
    requires remaining <= length <= |all| && n == Min(|here|, remaining) && remaining <= |here + rest|
    requires all[..length] == all[..length - remaining] + (here + rest)[..remaining]
    ensures remaining - n <= |rest|
    ensures all[..length - (remaining - n)] == all[..length - remaining] + here[..n]
    ensures all[..length] == all[..length - (remaining - n)] + rest[..remaining - n]
  {
    assert (here + rest)[..remaining] == here[..n] + rest[..remaining - n];
    var m := length - remaining;
    assert all[..length] == (all[..m] + here[..n]) + rest[..remaining - n];
    assert all[..m + n] == all[..length][..m + n] == all[..m] + here[..n];
  }
}
