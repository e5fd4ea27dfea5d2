/** The pile as it works on its file: appending, loading and reading move a file position and write bytes. */
module PileNode {
  import opened Bytes
  import opened PileFormat
  import opened PileCrash
  import opened PileRead

  /** A file with a position. `ops` is the history of its writes and syncs. */
  class File {
    var data: seq<byte>
    var pos: int
    ghost var ops: seq<Op>

    constructor (d: seq<byte>)
      ensures data == d && pos == 0 && ops == []
    {
      data, pos, ops := d, 0, [];
    }

    method Seek(at: int) returns (ok: bool)
      modifies this`pos
      ensures ok == (at >= 0) && pos == (if ok then at else old(pos))
    {
      ok := at >= 0;
      if ok { pos := at; }
    }

    method Take(n: nat) returns (r: ReadResult)
      modifies this`pos
      ensures r == Read(data, old(pos), n)
      ensures r.ReadFailed? ==> pos == old(pos)
      ensures r.Bytes? ==> pos == if old(pos) + n <= |data| || n == 0 then old(pos) + n else |data|
    {
      r := Read(data, pos, n);
      if r.Bytes? { pos := if pos + n <= |data| || n == 0 then pos + n else |data|; }
    }

    method Put(bs: seq<byte>)
      requires pos >= 0
      modifies this
      ensures data == PileFormat.Put(old(data), old(pos), bs) && pos == old(pos) + |bs|
      ensures ops == old(ops) + [Write(old(pos), bs)]
    {
      data, ops := PileFormat.Put(data, pos, bs), ops + [Write(pos, bs)];
      pos := pos + |bs|;
    }

    method SyncAll()
      modifies this`ops
      ensures ops == old(ops) + [Sync]
    {
      ops := ops + [Sync];
    }
  }

  lemma CheckOpsJoin(done: seq<Op>, h: seq<byte>, sync: bool)
    ensures done + SyncOp(sync) + [Write(4, h)] + SyncOp(sync) + [Write(8, h)] + SyncOp(sync) ==
      done + CheckOps(h, sync)
  {
  }

  lemma PiecesAre(c: Codec, hash: seq<byte>, datas: seq<seq<byte>>, r: Record, cs: seq<seq<byte>>)
    requires |hash| == 32 && r == Packed(c, hash, datas) && cs == Pieces(r)
    ensures |cs| == 2 + |datas| + |datas| && cs[0] == hash && cs[1] == [|datas| % 256]
    ensures forall i :: 0 <= i < |datas| ==> cs[2 + i] == ToLE(|c.zip(datas[i])|, 4)
    ensures forall i :: 0 <= i < |datas| ==> cs[2 + |datas| + i] == c.zip(datas[i])
  {
  }

  lemma PiecesSize(c: Codec, hash: seq<byte>, datas: seq<seq<byte>>, r: Record, cs: seq<seq<byte>>)
    requires |hash| == 32 && r == Packed(c, hash, datas) && cs == Pieces(r)
    ensures |cs| >= 2 + |datas| && |Concat(cs[..2 + |datas|])| == 33 + 4 * |datas|
  {
    PrefixSizes(r, 0);
    assert Concat(r.zdatas[..0]) == [];
  }

  lemma DataWritesSnoc(at: nat, cs: seq<seq<byte>>, k: nat)
    requires k < |cs|
    ensures DataWrites(at, cs[..k + 1]) == DataWrites(at, cs[..k]) + [Write(at + |Concat(cs[..k])|, cs[k])]
    ensures |Concat(cs[..k + 1])| == |Concat(cs[..k])| + |cs[k]|
  {
    assert cs[..k + 1][..k] == cs[..k];
  }

  /** `file` has done exactly `ops` since its data were `f` and its history was `past`. */
  ghost predicate Did(file: File, f: seq<byte>, past: seq<Op>, ops: seq<Op>)
    reads file
  {
    file.data == Run(f, ops) && file.ops == past + ops
  }

  method WriteStep(file: File, bs: seq<byte>, ghost f: seq<byte>, ghost past: seq<Op>, ghost done: seq<Op>)
    requires file.pos >= 0 && Did(file, f, past, done)
    modifies file
    ensures Did(file, f, past, done + [Write(old(file.pos), bs)]) && file.pos == old(file.pos) + |bs|
  {
    file.Put(bs);
    RunOne(f, done, Write(old(file.pos), bs));
    assert past + done + [Write(old(file.pos), bs)] == past + (done + [Write(old(file.pos), bs)]);
  }

  method SyncStep(file: File, sync: bool, ghost f: seq<byte>, ghost past: seq<Op>, ghost done: seq<Op>)
    requires Did(file, f, past, done)
    modifies file`ops
    ensures Did(file, f, past, done + SyncOp(sync))
  {
    if sync {
      file.SyncAll();
      assert (done + [Sync])[..|done|] == done;
      assert past + done + [Sync] == past + (done + [Sync]);
    } else {
      assert done + [] == done;
    }
  }

  /** One piece of a record, written after the pieces before it. */
  method WritePiece(file: File, bs: seq<byte>, ghost f: seq<byte>, ghost past: seq<Op>,
                    ghost off: nat, ghost cs: seq<seq<byte>>, ghost k: nat)
    requires k < |cs| && bs == cs[k] && file.pos == off + |Concat(cs[..k])|
    requires Did(file, f, past, DataWrites(off, cs[..k]))
    modifies file
    ensures file.pos == off + |Concat(cs[..k + 1])| && Did(file, f, past, DataWrites(off, cs[..k + 1]))
  {
    DataWritesSnoc(off, cs, k);
    WriteStep(file, bs, f, past, DataWrites(off, cs[..k]));
  }

  /** Compresses the items and writes their sizes, the pieces of `cs` from the third on. */
  method WriteSizes(file: File, c: Codec, datas: seq<seq<byte>>, ghost f: seq<byte>, ghost past: seq<Op>,
                    ghost off: nat, ghost cs: seq<seq<byte>>) returns (zdatas: seq<seq<byte>>)
    requires |cs| >= 2 + |datas| && forall i :: 0 <= i < |datas| ==> cs[2 + i] == ToLE(|c.zip(datas[i])|, 4)
    requires file.pos == off + |Concat(cs[..2])| && Did(file, f, past, DataWrites(off, cs[..2]))
    modifies file
    ensures |zdatas| == |datas| && forall i :: 0 <= i < |datas| ==> zdatas[i] == c.zip(datas[i])
    ensures file.pos == off + |Concat(cs[..2 + |datas|])| && Did(file, f, past, DataWrites(off, cs[..2 + |datas|]))
  {
    zdatas := [];
    for i := 0 to |datas|
      invariant |zdatas| == i && forall j :: 0 <= j < i ==> zdatas[j] == c.zip(datas[j])
      invariant file.pos == off + |Concat(cs[..2 + i])| && Did(file, f, past, DataWrites(off, cs[..2 + i]))
    {
      var zd := c.zip(datas[i]);
      zdatas := zdatas + [zd];
      WritePiece(file, ToLE(|zd|, 4), f, past, off, cs, 2 + i);
    }
  }

  /** Writes the items, the last pieces of `cs`, and adds up their size. */
  method WriteItems(file: File, zdatas: seq<seq<byte>>, ghost f: seq<byte>, ghost past: seq<Op>,
                    ghost off: nat, ghost cs: seq<seq<byte>>, ghost m: nat, start: nat) returns (total: nat)
    requires |cs| == m + |zdatas| && forall i :: 0 <= i < |zdatas| ==> cs[m + i] == zdatas[i]
    requires start == |Concat(cs[..m])|
    requires file.pos == off + |Concat(cs[..m])| && Did(file, f, past, DataWrites(off, cs[..m]))
    modifies file
    ensures total == |Concat(cs)| && Did(file, f, past, DataWrites(off, cs))
  {
    total := start;
    for i := 0 to |zdatas|
      invariant file.pos == off + |Concat(cs[..m + i])| && Did(file, f, past, DataWrites(off, cs[..m + i]))
      invariant total == |Concat(cs[..m + i])|
    {
      DataWritesSnoc(off, cs, m + i);
      WritePiece(file, zdatas[i], f, past, off, cs, m + i);
      total := total + |zdatas[i]|;
    }
    assert cs[..m + |zdatas|] == cs;
  }

  /** Writes the hash, the number of items, the compressed sizes and the compressed items, and adds up their size. */
  /** The first two pieces: the hash of the block and the number of its items. */
  method WriteStart(file: File, hash: seq<byte>, count: seq<byte>, ghost off: nat, ghost cs: seq<seq<byte>>)
    requires file.pos == off && |cs| >= 2 && cs[0] == hash && cs[1] == count
    modifies file
    ensures file.pos == off + |Concat(cs[..2])|
    ensures Did(file, old(file.data), old(file.ops), DataWrites(off, cs[..2]))
  {
    ghost var f, past := file.data, file.ops;
    assert cs[..0] == [] && past + [] == past;
    WritePiece(file, hash, f, past, off, cs, 0);
    WritePiece(file, count, f, past, off, cs, 1);
  }

  method WriteRecord(file: File, c: Codec, hash: seq<byte>, datas: seq<seq<byte>>, ghost off: nat, ghost r: Record,
                     ghost cs: seq<seq<byte>>)
      returns (total: nat)
    requires file.pos == off && |hash| == 32 && r == Packed(c, hash, datas) && cs == Pieces(r)
    modifies file
    ensures total == |Concat(cs)| && Did(file, old(file.data), old(file.ops), DataWrites(off, cs))
  {
    PiecesAre(c, hash, datas, r, cs);
    PiecesSize(c, hash, datas, r, cs);
    total := WritePieces(file, c, hash, datas, off, cs);
  }

  method WritePieces(file: File, c: Codec, hash: seq<byte>, datas: seq<seq<byte>>, ghost off: nat,
                     ghost cs: seq<seq<byte>>)
      returns (total: nat)
    requires file.pos == off && |cs| == 2 + |datas| + |datas| && cs[0] == hash && cs[1] == [|datas| % 256]
    requires forall i :: 0 <= i < |datas| ==> cs[2 + i] == ToLE(|c.zip(datas[i])|, 4)
    requires forall i :: 0 <= i < |datas| ==> cs[2 + |datas| + i] == c.zip(datas[i])
    requires |Concat(cs[..2 + |datas|])| == 33 + 4 * |datas|
    modifies file
    ensures total == |Concat(cs)| && Did(file, old(file.data), old(file.ops), DataWrites(off, cs))
  {
    ghost var f, past := file.data, file.ops;
    WriteStart(file, hash, [|datas| % 256], off, cs);
    var zdatas := WriteSizes(file, c, datas, f, past, off, cs);
    total := WriteItems(file, zdatas, f, past, off, cs, 2 + |datas|, 32 + 1 + 4 * |datas|);
  }

  datatype AppendCode = Appended | InvalidAppendHeight | AppendFailed

  class Pile {
    const file: File
    var head: nat
    const begin: nat
    const gen: seq<byte>

    constructor (file: File, head: nat, begin: nat, gen: seq<byte>)
      ensures this.file == file && this.head == head && this.begin == begin && this.gen == gen
    {
      this.file, this.head, this.begin, this.gen := file, head, begin, gen;
    }

    /** Where the record of the next height goes. */
    method FindEnd(from: nat) returns (off: OffsetResult)
      modifies file`pos
      ensures off == EndOf(file.data, from)
    {
      if from == 0 { return Off(HEADER_SIZE); }
      var _ := file.Seek(META_SIZE + (from - 1) * 8);
      var bs := file.Take(8);
      off := if bs.ReadFailed? then NoOffset else Off(Int64(FromLE(bs.bytes)));
    }

    method WriteCheck(at: nat, h: seq<byte>, sync: bool, ghost f: seq<byte>, ghost past: seq<Op>, ghost done: seq<Op>)
      requires Did(file, f, past, done)
      modifies file
      ensures Did(file, f, past, done + [Write(at, h)] + SyncOp(sync))
    {
      var _ := file.Seek(at);
      WriteStep(file, h, f, past, done);
      SyncStep(file, sync, f, past, done + [Write(at, h)]);
    }

    method WriteChecks(h: seq<byte>, sync: bool, ghost f: seq<byte>, ghost past: seq<Op>, ghost done: seq<Op>)
      requires Did(file, f, past, done)
      modifies file
      ensures Did(file, f, past, done + CheckOps(h, sync))
    {
      SyncStep(file, sync, f, past, done);
      ghost var d1 := done + SyncOp(sync);
      WriteCheck(4, h, sync, f, past, d1);
      ghost var d2 := d1 + [Write(4, h)] + SyncOp(sync);
      WriteCheck(8, h, sync, f, past, d2);
      CheckOpsJoin(done, h, sync);
    }

    /** The slot, the head height and its two checks, with a sync after each height if asked for. */
    method WriteHeads(from: nat, s: seq<byte>, h: seq<byte>, sync: bool, ghost f: seq<byte>, ghost past: seq<Op>,
                      ghost done: seq<Op>)
      requires Did(file, f, past, done)
      modifies file
      ensures Did(file, f, past, done + [Write(SlotAt(from), s)] + [Write(0, h)] + CheckOps(h, sync))
    {
      var _ := file.Seek(META_SIZE + from * 8);
      WriteStep(file, s, f, past, done);
      ghost var d1 := done + [Write(SlotAt(from), s)];
      var _ := file.Seek(0);
      WriteStep(file, h, f, past, d1);
      WriteChecks(h, sync, f, past, d1 + [Write(0, h)]);
    }

    /** The writing part of an append, at a known offset. */
    method AppendAt(c: Codec, sync: bool, hash: seq<byte>, datas: seq<seq<byte>>, from: nat, off: nat,
                    ghost cs: seq<seq<byte>>)
      requires |hash| == 32 && cs == Pieces(Packed(c, hash, datas))
      modifies this`head, file
      ensures head == old(head) + 1
      ensures Did(file, old(file.data), old(file.ops), AppendOps(off, from, old(head), cs, sync))
    {
      var _ := file.Seek(off);
      ghost var f, past := file.data, file.ops;
      var total := WriteRecord(file, c, hash, datas, off, Packed(c, hash, datas), cs);
      WriteHeads(from, ToLE(off + total, 8), ToLE(head + 1, 4), sync, f, past, DataWrites(off, cs));
      head := head + 1;
    }

    /** Appends one record: either nothing is written, or exactly the operations of an append at the end of the log. */
    method AppendData(c: Codec, sync: bool, height: nat, hash: seq<byte>, datas: seq<seq<byte>>,
                      ghost cs: seq<seq<byte>>)
        returns (code: AppendCode)
      requires begin <= head && head + 1 < U32 && |hash| == 32 && cs == Pieces(Packed(c, hash, datas))
      modifies this`head, file
      ensures code.InvalidAppendHeight? <==> height != old(head) + 1
      ensures code.AppendFailed? <==>
        var end := EndOf(old(file.data), old(head) - begin);
        height == old(head) + 1 && (end.NoOffset? || end.at < 0)
      ensures !code.Appended? ==> file.data == old(file.data) && file.ops == old(file.ops) && head == old(head)
      ensures code.Appended? ==> head == old(head) + 1 && Did(file, old(file.data), old(file.ops),
        AppendOps(EndOf(old(file.data), old(head) - begin).at, old(head) - begin, old(head), cs, sync))
    {
      if height != head + 1 { return InvalidAppendHeight; }
      var from := head - begin;
      var end := FindEnd(from);
      if end.NoOffset? || end.at < 0 { return AppendFailed; }
      AppendAt(c, sync, hash, datas, from, end.at, cs);
      code := Appended;
    }

    /** Reads the hash of a height. */
    method ReadHash(height: nat) returns (r: Got)
      modifies file`pos
      ensures r == GetHash(file.data, begin, height)
    {
      if height > (begin + CHUNK_UNIT) % U32 { return Failed(InvalidHeight); }
      var off := FindStart(height);
      if off.NoOffset? { return Failed(Unreadable); }
      var ok := file.Seek(off.at);
      if !ok { return Failed(Unreadable); }
      var bs := file.Take(32);
      r := if bs.ReadFailed? then Failed(Unreadable) else Got(bs.bytes);
    }

    method FindStart(height: nat) returns (off: OffsetResult)
      modifies file`pos
      ensures off == StartOf(file.data, begin, height)
    {
      var from := (height - begin) % U32;
      off := FindEnd(if from > 1 then from - 1 else 0);
    }

    /** The size table of a height, for readers that need `wanted` items. */
    method FindTable(height: nat, wanted: int) returns (t: Table)
      modifies file`pos
      ensures t == TableFor(file.data, head, begin, height, wanted)
      ensures t.Table? ==> t.end >= 0
    {
      if height > (begin + CHUNK_UNIT) % U32 || height > head { return NoTable(InvalidHeight); }
      var off := FindStart(height);
      if off.NoOffset? { return NoTable(Unreadable); }
      var ok := file.Seek(off.at + 32);
      if !ok { return NoTable(Unreadable); }
      var l := file.Take(1);
      if l.ReadFailed? { return NoTable(Unreadable); }
      var n: nat := l.bytes[0];
      if wanted > n { return NoTable(InvalidDataIndex); }
      var z := file.Take(4 * n % 256);
      t := if z.ReadFailed? then NoTable(Unreadable) else Table(n, z.bytes, off.at + 33 + 4 * n % 256);
    }

    /** The sum of the first `n` sizes, read one by one. */
    method AddSizes(sizes: seq<byte>, n: int) returns (sum: Size)
      ensures sum == SumOf(sizes, n)
    {
      var s: nat := 0;
      var i := 0;
      while i < n
        invariant 0 <= i && (i <= n || i == 0) && SumOf(sizes, i) == Size(s)
      {
        var z := SizeAt(sizes, i);
        if z.OutOfRange? {
          Beyond(sizes, i, n);
          return OutOfRange;
        }
        s := s + z.n;
        i := i + 1;
      }
      sum := Size(s);
    }

    /** Reads one data item of a height. */
    method ReadData(c: Codec, height: nat, index: int) returns (r: Got)
      modifies file`pos
      ensures r == GetData(file.data, c, head, begin, height, index)
    {
      var t := FindTable(height, index + 1);
      if t.NoTable? { return Failed(t.code); }
      var skip := AddSizes(t.sizes, index);
      if skip.OutOfRange? { return Panic; }
      var ok := file.Seek(t.end + skip.n);
      if !ok { return Failed(Unreadable); }
      var size := SizeAt(t.sizes, index);
      if size.OutOfRange? { return Panic; }
      r := TakeItem(c, size.n);
    }

    method TakeItem(c: Codec, size: nat) returns (r: Got)
      modifies file`pos
      ensures r == ReadItem(file.data, c, old(file.pos), size)
      ensures r.Got? ==>
        file.pos == if old(file.pos) + size <= |file.data| || size == 0 then old(file.pos) + size else |file.data|
    {
      var z := file.Take(size);
      if z.ReadFailed? { return Failed(Unreadable); }
      var d := c.unzip(z.bytes);
      r := if d.ReadFailed? then Failed(BadData) else Got(d.bytes);
    }

    /** Reads a range of data items of a height into one buffer. */
    method ReadDatas(c: Codec, height: nat, from: int, count: int) returns (r: Got)
      modifies file`pos
      ensures r == GetDatas(file.data, c, head, begin, height, from, count)
    {
      var t := FindTable(height, from + count);
      if t.NoTable? { return Failed(t.code); }
      var skip := AddSizes(t.sizes, from);
      if skip.OutOfRange? { return Panic; }
      var ok := file.Seek(t.end + skip.n);
      if !ok { return Failed(Unreadable); }
      r := TakeItems(c, t.sizes, from, count);
    }

    method TakeItems(c: Codec, sizes: seq<byte>, from: int, count: int) returns (r: Got)
      requires file.pos >= 0
      modifies file`pos
      ensures r == ItemsFrom(file.data, c, sizes, old(file.pos), from, count)
    {
      var buffer: seq<byte> := [];
      ghost var at := file.pos;
      ghost var n: nat := 0;
      var i := 0;
      while i < count
        invariant 0 <= i && (i <= count || i == 0)
        invariant SumFrom(sizes, from, i) == Size(n) && ItemsFrom(file.data, c, sizes, at, from, i) == Got(buffer)
        invariant file.pos == at + n || |file.data| == file.pos <= at + n
      {
        var item, size := TakeNext(c, sizes, from + i, at + n);
        if !item.Got? {
          StopsEarly(file.data, c, sizes, at, from, i, count, item);
          return item;
        }
        OneMoreItem(file.data, c, sizes, at, from, i, buffer, item.bytes);
        buffer := buffer + item.bytes;
        i, n := i + 1, n + size;
      }
      r := Got(buffer);
    }

    method TakeNext(c: Codec, sizes: seq<byte>, k: int, ghost at: int) returns (item: Got, size: nat)
      requires file.pos >= 0 && (file.pos == at || |file.data| == file.pos <= at)
      modifies file`pos
      ensures SizeAt(sizes, k).OutOfRange? ==> item == Panic
      ensures SizeAt(sizes, k).Size? ==> SizeAt(sizes, k).n == size && item == ReadItem(file.data, c, at, size)
      ensures item.Got? ==> SizeAt(sizes, k).Size?
      ensures item.Got? ==> file.pos == at + size || |file.data| == file.pos <= at + size
    {
      var s := SizeAt(sizes, k);
      if s.OutOfRange? { return Panic, 0; }
      size := s.n;
      PastEnd(file.data, c, file.pos, at, size);
      item := TakeItem(c, size);
    }
  }

  lemma {:induction false} Beyond(sizes: seq<byte>, i: nat, n: int)
    requires SizeAt(sizes, i).OutOfRange? && i < n
    ensures SumOf(sizes, n).OutOfRange?
    decreases n
  {
    if n - 1 > i {
      Beyond(sizes, i, n - 1);
    }
  }

  /** Reading at the end of the file and reading beyond it give the same. */
  lemma PastEnd(f: seq<byte>, c: Codec, pos: int, at: int, size: nat)
    requires pos == at || |f| == pos <= at
    ensures ReadItem(f, c, pos, size) == ReadItem(f, c, at, size)
  {
  }

  /** A failure at one item is the result of reading that item and any after it. */
  lemma {:induction false} StopsEarly(f: seq<byte>, c: Codec, sizes: seq<byte>, at: int, from: int, i: nat,
                                      count: int, bad: Got)
    requires i < count && !bad.Got? && ItemsFrom(f, c, sizes, at, from, i + 1) == bad
    ensures ItemsFrom(f, c, sizes, at, from, count) == bad
    decreases count
  {
    if count > i + 1 {
      StopsEarly(f, c, sizes, at, from, i, count - 1, bad);
    }
  }

  // ---- loading ----

  /** The writes of a repair, done one by one. */
  method DoRepair(file: File, head: nat, a: nat, b: nat) returns (fixed: Repaired)
    modifies file
    ensures fixed == Repair(head, a, b)
    ensures Did(file, old(file.data), old(file.ops), if fixed.Repaired? then fixed.ops else [])
  {
    assert file.ops + [] == file.ops;
    if head == a && a == b {
      fixed := Repaired([], head);
    } else if a == b {
      RepairWrite(file, 0, ToLE(a, 4));
      fixed := Repaired([Write(0, ToLE(a, 4)), Sync], a);
    } else if head == (b + 1) % U32 {
      RepairBoth(file, ToLE(head, 4));
      fixed := Repaired([Write(4, ToLE(head, 4)), Write(8, ToLE(head, 4)), Sync], head);
    } else if head == a {
      RepairWrite(file, 8, ToLE(head, 4));
      fixed := Repaired([Write(8, ToLE(head, 4)), Sync], head);
    } else {
      fixed := Broken;
    }
  }

  method RepairBoth(file: File, h: seq<byte>)
    requires |h| == 4
    modifies file
    ensures Did(file, old(file.data), old(file.ops), [Write(4, h), Write(8, h), Sync])
  {
    ghost var f, past := file.data, file.ops;
    assert past + [] == past;
    var _ := file.Seek(4);
    WriteStep(file, h, f, past, []);
    WriteStep(file, h, f, past, [] + [Write(4, h)]);
    SyncStep(file, true, f, past, [] + [Write(4, h)] + [Write(8, h)]);
    assert [] + [Write(4, h)] + [Write(8, h)] + [Sync] == [Write(4, h), Write(8, h), Sync];
  }

  method RepairWrite(file: File, at: nat, h: seq<byte>)
    modifies file
    ensures Did(file, old(file.data), old(file.ops), [Write(at, h), Sync])
  {
    ghost var f, past := file.data, file.ops;
    assert past + [] == past;
    var _ := file.Seek(at);
    WriteStep(file, h, f, past, []);
    SyncStep(file, true, f, past, [] + [Write(at, h)]);
    assert [] + [Write(at, h)] + [Sync] == [Write(at, h), Sync];
  }

  /** Loads a pile file, repairing its head heights. */
  method Load(file: File) returns (r: LoadResult)
    modifies file
    ensures r == LoadPile(old(file.data))
    ensures r.Loaded? ==> file.data == r.file
  {
    var _ := file.Seek(0);
    var m := file.Take(META_SIZE);
    if m.ReadFailed? { return Refused(ReadError); }
    var meta := m.bytes;
    var begin := Word(meta, 12);
    if begin % CHUNK_UNIT != 0 { return Refused(InvalidChunkBeginHeight); }
    if (begin + CHUNK_UNIT) % U32 != Word(meta, 16) { return Refused(InvalidChunkEndHeight); }
    var fixed := DoRepair(file, Word(meta, 0), Word(meta, 4), Word(meta, 8));
    if fixed.Broken? { return Refused(HeightCrashed); }
    r := CheckSize(file, fixed.head, begin, meta[20..52]);
  }

  method CheckSize(file: File, head: nat, begin: nat, gen: seq<byte>) returns (r: LoadResult)
    modifies file`pos
    ensures r == Finish(file.data, head, begin, gen)
  {
    var from, end := (head - begin) % U32, HEADER_SIZE;
    if from > 0 {
      var _ := file.Seek(META_SIZE + (from - 1) * 8);
      var bs := file.Take(8);
      if bs.ReadFailed? { return Refused(ReadError); }
      end := Int64(FromLE(bs.bytes));
    }
    r := if |file.data| < end then Refused(InvalidFileSize) else Loaded(file.data, head, begin, gen);
  }
}
