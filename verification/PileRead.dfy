/** Reading records back from a pile. */
module PileRead {
  import opened Bytes
  import opened PileFormat
  import opened PileCrash

  /** Compression of data items; reading a damaged item fails. */
  datatype Codec = Codec(zip: seq<byte> -> seq<byte>, unzip: seq<byte> -> ReadResult)

  /** What was compressed can be read again. */
  ghost predicate ValidCodec(c: Codec) {
    forall x {:trigger c.zip(x)} :: c.unzip(c.zip(x)) == Bytes(x)
  }

  lemma CodecExists() returns (c: Codec)
    ensures ValidCodec(c) && forall x :: c.zip(x) == x
  {
    c := Codec(x => x, x => Bytes(x));
  }

  /** The sizes of the compressed items fit into the size table. */
  predicate Fits(c: Codec, datas: seq<seq<byte>>) {
    forall i :: 0 <= i < |datas| ==> |c.zip(datas[i])| < U32
  }

  /** The record that is stored for a hash and data items. */
  function Packed(c: Codec, hash: seq<byte>, datas: seq<seq<byte>>): Record {
    Record(hash, seq(|datas|, i requires 0 <= i < |datas| => c.zip(datas[i])))
  }

  datatype ReadCode = InvalidHeight | InvalidDataIndex | Unreadable | BadData
  datatype Got = Got(bytes: seq<byte>) | Failed(code: ReadCode) | Panic

  /** Where the record of a height starts; the first two heights of a chunk count as its first record. */
  function StartOf(f: seq<byte>, begin: nat, h: nat): OffsetResult {
    var from := (h - begin) % U32;
    EndOf(f, if from > 1 then from - 1 else 0)
  }

  function GetHash(f: seq<byte>, begin: nat, h: nat): Got {
    if h > (begin + CHUNK_UNIT) % U32 then Failed(InvalidHeight)
    else
      var off := StartOf(f, begin, h);
      if off.NoOffset? then Failed(Unreadable)
      else
        var r := Read(f, off.at, 32);
        if r.ReadFailed? then Failed(Unreadable) else Got(r.bytes)
  }

  /** The head of a record as the readers see it: the item count, the item sizes, and where the sizes end.
      The size of the size table is computed in a byte. */
  datatype Table = Table(count: nat, sizes: seq<byte>, end: int) | NoTable(code: ReadCode)

  function ReadTable(f: seq<byte>, off: int, wanted: int): Table {
    var l := Read(f, off + 32, 1);
    if l.ReadFailed? then NoTable(Unreadable)
    else
      var n: nat := l.bytes[0];
      if wanted > n then NoTable(InvalidDataIndex)
      else
        var z := Read(f, off + 33, 4 * n % 256);
        if z.ReadFailed? then NoTable(Unreadable) else Table(n, z.bytes, off + 33 + 4 * n % 256)
  }

  function TableFor(f: seq<byte>, head: nat, begin: nat, h: nat, wanted: int): Table {
    if h > (begin + CHUNK_UNIT) % U32 || h > head then NoTable(InvalidHeight)
    else
      var off := StartOf(f, begin, h);
      if off.NoOffset? then NoTable(Unreadable) else ReadTable(f, off.at, wanted)
  }

  datatype Size = Size(n: nat) | OutOfRange

  /** One entry of the size table; reading beyond the table panics. */
  function SizeAt(sizes: seq<byte>, i: int): Size {
    if 0 <= i && 4 * i + 4 <= |sizes| then Size(Word(sizes, 4 * i)) else OutOfRange
  }

  function SumOf(sizes: seq<byte>, n: int): Size
    decreases n
  {
    if n <= 0 then Size(0)
    else
      var s, z := SumOf(sizes, n - 1), SizeAt(sizes, n - 1);
      if s.Size? && z.Size? then Size(s.n + z.n) else OutOfRange
  }

  function ReadItem(f: seq<byte>, c: Codec, at: int, size: nat): Got {
    var z := Read(f, at, size);
    if z.ReadFailed? then Failed(Unreadable)
    else
      var d := c.unzip(z.bytes);
      if d.ReadFailed? then Failed(BadData) else Got(d.bytes)
  }

  function ItemFrom(f: seq<byte>, c: Codec, t: Table, index: int): Got
    requires t.Table?
  {
    var skip, size := SumOf(t.sizes, index), SizeAt(t.sizes, index);
    if skip.OutOfRange? then Panic
    else if t.end + skip.n < 0 then Failed(Unreadable)
    else if size.OutOfRange? then Panic
    else ReadItem(f, c, t.end + skip.n, size.n)
  }

  function GetData(f: seq<byte>, c: Codec, head: nat, begin: nat, h: nat, index: int): Got {
    var t := TableFor(f, head, begin, h, index + 1);
    if t.NoTable? then Failed(t.code) else ItemFrom(f, c, t, index)
  }

  /** The items from `from`, `count` of them, one after another in the file from `at` on. */
  function ItemsFrom(f: seq<byte>, c: Codec, sizes: seq<byte>, at: int, from: int, count: int): Got
    decreases count
  {
    if count <= 0 then Got([])
    else
      var before := ItemsFrom(f, c, sizes, at, from, count - 1);
      if !before.Got? then before
      else
        var skip, size := SumFrom(sizes, from, count - 1), SizeAt(sizes, from + count - 1);
        if size.OutOfRange? || skip.OutOfRange? then Panic
        else
          var item := ReadItem(f, c, at + skip.n, size.n);
          if item.Got? then Got(before.bytes + item.bytes) else item
  }

  function SumFrom(sizes: seq<byte>, from: int, n: int): Size
    decreases n
  {
    if n <= 0 then Size(0)
    else
      var s, z := SumFrom(sizes, from, n - 1), SizeAt(sizes, from + n - 1);
      if s.Size? && z.Size? then Size(s.n + z.n) else OutOfRange
  }

  function GetDatas(f: seq<byte>, c: Codec, head: nat, begin: nat, h: nat, from: int, count: int): Got {
    var t := TableFor(f, head, begin, h, from + count);
    if t.NoTable? then Failed(t.code)
    else
      var skip := SumOf(t.sizes, from);
      if skip.OutOfRange? then Panic
      else if t.end + skip.n < 0 then Failed(Unreadable)
      else ItemsFrom(f, c, t.sizes, t.end + skip.n, from, count)
  }

  // ---- pieces of a record ----

  lemma {:induction false} PieceAt(cs: seq<seq<byte>>, j: nat)
    requires j < |cs|
    ensures Has(Concat(cs), |Concat(cs[..j])|, cs[j])
    ensures |Concat(cs[..j + 1])| == |Concat(cs[..j])| + |cs[j]|
  {
    var front := cs[..|cs| - 1];
    assert cs[..j + 1][..j] == cs[..j];
    if j < |cs| - 1 {
      PieceAt(front, j);
      assert front[..j] == cs[..j];
      HasLonger(Concat(front), cs[|cs| - 1], |Concat(cs[..j])|, cs[j]);
    } else {
      assert cs[..j] == front;
    }
  }

  lemma HasLonger(x: seq<byte>, y: seq<byte>, at: nat, bs: seq<byte>)
    requires Has(x, at, bs)
    ensures Has(x + y, at, bs)
  {
    assert (x + y)[at..at + |bs|] == x[at..at + |bs|];
  }

  lemma HasPart(f: seq<byte>, off: nat, x: seq<byte>, at: nat, bs: seq<byte>)
    requires Has(f, off, x) && Has(x, at, bs)
    ensures Has(f, off + at, bs)
  {
    SubSlice(f, off, off + |x|, at, at + |bs|);
  }

  /** Piece `j` of a stored record is where the sizes of the pieces before it say. */
  lemma PieceHeld(f: seq<byte>, off: nat, cs: seq<seq<byte>>, j: nat)
    requires Has(f, off, Concat(cs)) && j < |cs|
    ensures Has(f, off + |Concat(cs[..j])|, cs[j])
  {
    PieceAt(cs, j);
    HasPart(f, off, Concat(cs), |Concat(cs[..j])|, cs[j]);
  }

  // ---- the size table ----

  lemma {:induction false} TableSize(zs: seq<seq<byte>>, k: nat)
    requires k <= |zs|
    ensures |Concat(Lengths(zs)[..k])| == 4 * k
  {
    if k > 0 {
      TableSize(zs, k - 1);
      assert Lengths(zs)[..k][..k - 1] == Lengths(zs)[..k - 1];
    }
  }

  lemma TableEntry(zs: seq<seq<byte>>, i: nat)
    requires i < |zs| && |zs[i]| < U32
    ensures SizeAt(Concat(Lengths(zs)), i) == Size(|zs[i]|)
  {
    var t := Concat(Lengths(zs));
    assert Lengths(zs)[..|zs|] == Lengths(zs);
    TableSize(zs, |zs|);
    TableSize(zs, i);
    PieceAt(Lengths(zs), i);
    assert t[4 * i..4 * i + 4] == ToLE(|zs[i]|, 4);
    RoundTrip32(|zs[i]|);
  }

  lemma {:induction false} TableSum(zs: seq<seq<byte>>, k: nat)
    requires k <= |zs| && forall i :: 0 <= i < |zs| ==> |zs[i]| < U32
    ensures SumOf(Concat(Lengths(zs)), k) == Size(|Concat(zs[..k])|)
  {
    if k > 0 {
      TableSum(zs, k - 1);
      TableEntry(zs, k - 1);
      assert zs[..k][..k - 1] == zs[..k - 1];
    }
  }

  lemma {:induction false} SumFromIs(sizes: seq<byte>, from: nat, n: nat)
    requires SumOf(sizes, from + n).Size?
    ensures SumOf(sizes, from).Size? && SumFrom(sizes, from, n).Size?
    ensures SumFrom(sizes, from, n).n == SumOf(sizes, from + n).n - SumOf(sizes, from).n
  {
    if n > 0 {
      SumFromIs(sizes, from, n - 1);
    }
  }

  /** A sum that needs an entry beyond the table panics. */
  lemma {:induction false} SumBeyond(sizes: seq<byte>, k: nat, n: nat)
    requires 4 * k + 4 > |sizes| && k < n
    ensures SumOf(sizes, n).OutOfRange?
  {
    if n - 1 > k {
      SumBeyond(sizes, k, n - 1);
    }
  }

  // ---- where the items are ----

  lemma ConcatOne(x: seq<byte>)
    ensures Concat([x]) == x
  {
    assert Concat([x][..0]) == [];
  }

  lemma HeadSizes(r: Record)
    requires |r.hash| == 32
    ensures Pieces(r)[..1] == [r.hash] && Pieces(r)[..2] == [r.hash, [|r.zdatas| % 256]]
    ensures |Concat(Pieces(r)[..1])| == 32 && |Concat(Pieces(r)[..2])| == 33
  {
    var cs, n := Pieces(r), |r.zdatas|;
    assert cs[..1] == [r.hash] && cs[..2] == [r.hash, [n % 256]];
    assert cs[..2][..1] == [r.hash];
    ConcatOne(r.hash);
  }

  lemma PrefixIs(cs: seq<seq<byte>>, l: seq<seq<byte>>, zs: seq<seq<byte>>, k: nat)
    requires |cs| == 2 && k <= |zs|
    ensures (cs + l + zs)[..2 + |l| + k] == cs + (l + zs[..k])
  {
  }

  /** The pieces before item `k`: hash, count, sizes and the items before it. */
  lemma PrefixSizes(r: Record, k: nat)
    requires |r.hash| == 32 && k <= |r.zdatas|
    ensures |Concat(Pieces(r)[..2 + |r.zdatas| + k])| == 33 + 4 * |r.zdatas| + |Concat(r.zdatas[..k])|
  {
    var cs, n, l, zs := Pieces(r)[..2], |r.zdatas|, Lengths(r.zdatas), r.zdatas[..k];
    HeadSizes(r);
    assert Pieces(r) == cs + l + r.zdatas;
    PrefixIs(cs, l, r.zdatas, k);
    ConcatSplit(cs, l + zs);
    ConcatSplit(l, zs);
    assert l[..n] == l;
    TableSize(r.zdatas, n);
  }

  lemma MidSlice(a: seq<byte>, b: seq<byte>, c: seq<byte>)
    ensures Has(a + (b + c), |a|, b)
  {
    assert (a + (b + c))[|a|..|a| + |b|] == b;
  }

  /** The size table of a stored record, as one range. */
  lemma TableHeld(f: seq<byte>, off: nat, r: Record)
    requires |r.hash| == 32 && Has(f, off, Encode(r))
    ensures Has(f, off + 33, Concat(Lengths(r.zdatas))) && |Concat(Lengths(r.zdatas))| == 4 * |r.zdatas|
  {
    var l := Lengths(r.zdatas);
    EncodeParts(r.hash, [|r.zdatas| % 256], l, r.zdatas);
    HasPart(f, off, Encode(r), 33, Concat(l));
    assert l[..|l|] == l;
    TableSize(r.zdatas, |l|);
  }

  lemma EncodeParts(h: seq<byte>, n: seq<byte>, l: seq<seq<byte>>, z: seq<seq<byte>>)
    ensures Has(Concat([h, n] + l + z), |h| + |n|, Concat(l))
  {
    assert [h, n] + l + z == [h, n] + (l + z);
    ConcatSplit([h, n], l + z);
    ConcatSplit(l, z);
    assert [h, n][..1] == [h];
    ConcatOne(h);
    MidSlice(Concat([h, n]), Concat(l), Concat(z));
  }

  lemma HasFront(f: seq<byte>, at: nat, t: seq<byte>, m: nat)
    requires Has(f, at, t) && m <= |t|
    ensures Has(f, at, t[..m])
  {
    SubSlice(f, at, at + |t|, 0, m);
  }

  /** The count of a stored record. */
  lemma CountRead(f: seq<byte>, off: nat, r: Record)
    requires ValidRecord(r) && Has(f, off, Encode(r))
    ensures Read(f, off + 32, 1) == Bytes([|r.zdatas|])
  {
    HeadSizes(r);
    assert Pieces(r)[1] == [|r.zdatas|];
    PieceHeld(f, off, Pieces(r), 1);
    HasReads(f, off + 32, [|r.zdatas|]);
  }

  /** What the readers see of a stored record: a size table that is cut off at its size modulo 256. */
  lemma TableRead(f: seq<byte>, off: nat, r: Record, t: seq<byte>, wanted: int)
    requires ValidRecord(r) && Has(f, off, Encode(r)) && t == Concat(Lengths(r.zdatas))
    ensures var n := |r.zdatas|;
      |t| == 4 * n && ReadTable(f, off, wanted) ==
        if wanted > n then NoTable(InvalidDataIndex) else Table(n, t[..4 * n % 256], off + 33 + 4 * n % 256)
  {
    var n := |r.zdatas|;
    CountRead(f, off, r);
    TableHeld(f, off, r);
    HasFront(f, off + 33, t, 4 * n % 256);
    HasReads(f, off + 33, t[..4 * n % 256]);
  }

  // ---- reading back ----

  /** Where item `index` of a stored record is. */
  lemma ItemHeld(f: seq<byte>, off: nat, r: Record, index: nat)
    requires |r.hash| == 32 && Has(f, off, Encode(r)) && index < |r.zdatas|
    ensures Has(f, off + 33 + 4 * |r.zdatas| + |Concat(r.zdatas[..index])|, r.zdatas[index])
  {
    PrefixSizes(r, index);
    assert Pieces(r)[2 + |r.zdatas| + index] == r.zdatas[index];
    PieceHeld(f, off, Pieces(r), 2 + |r.zdatas| + index);
  }

  function Unzipped(c: Codec, z: seq<byte>): Got {
    var d := c.unzip(z);
    if d.ReadFailed? then Failed(BadData) else Got(d.bytes)
  }

  /** An item whose size entry and the entries before it are in the table is read back. */
  lemma ItemRead(f: seq<byte>, off: nat, zs: seq<seq<byte>>, c: Codec, t: Table, index: nat)
    requires index < |zs| && t.Table? && t.sizes == Concat(Lengths(zs)) && t.end >= 0
    requires forall i :: 0 <= i < |zs| ==> |zs[i]| < U32
    requires Has(f, t.end + |Concat(zs[..index])|, zs[index])
    ensures ItemFrom(f, c, t, index) == Unzipped(c, zs[index])
  {
    TableSum(zs, index);
    TableEntry(zs, index);
    HasReads(f, t.end + |Concat(zs[..index])|, zs[index]);
  }

  /** The last item of a record of 64 items or more cannot be read: the size table is too short for it. */
  lemma LastPanics(f: seq<byte>, off: nat, r: Record, c: Codec, t: seq<byte>)
    requires 64 <= |r.zdatas| <= 255 && |t| == 4 * |r.zdatas|
    ensures ItemFrom(f, c, Table(|r.zdatas|, t[..4 * |r.zdatas| % 256], off + 33 + 4 * |r.zdatas| % 256),
      |r.zdatas| - 1) == Panic
  {
    var n := |r.zdatas|;
    assert 4 * n % 256 < 4 * n;
    assert SizeAt(t[..4 * n % 256], n - 1).OutOfRange?;
  }

  /** Item `i` of the items that start at `end`, and what it unpacks to. */
  ghost predicate ItemAt(f: seq<byte>, c: Codec, end: nat, zs: seq<seq<byte>>, datas: seq<seq<byte>>, i: nat)
    requires i < |zs| == |datas|
  {
    |zs[i]| < U32 && c.unzip(zs[i]) == Bytes(datas[i]) && Has(f, end + |Concat(zs[..i])|, zs[i])
  }

  ghost predicate ItemsAt(f: seq<byte>, c: Codec, end: nat, zs: seq<seq<byte>>, datas: seq<seq<byte>>) {
    |zs| == |datas| && forall i :: 0 <= i < |zs| ==> ItemAt(f, c, end, zs, datas, i)
  }

  lemma SizesBound(f: seq<byte>, c: Codec, end: nat, zs: seq<seq<byte>>, datas: seq<seq<byte>>)
    requires ItemsAt(f, c, end, zs, datas)
    ensures forall i :: 0 <= i < |zs| ==> |zs[i]| < U32
  {
    forall i | 0 <= i < |zs| ensures |zs[i]| < U32 {
      assert ItemAt(f, c, end, zs, datas, i);
    }
  }

  lemma ItemReads(f: seq<byte>, c: Codec, end: nat, zs: seq<seq<byte>>, datas: seq<seq<byte>>, i: nat, at: int,
                  size: nat)
    requires ItemsAt(f, c, end, zs, datas) && i < |zs| && at == end + |Concat(zs[..i])| && size == |zs[i]|
    ensures ReadItem(f, c, at, size) == Got(datas[i])
  {
    assert ItemAt(f, c, end, zs, datas, i);
    HasReads(f, at, zs[i]);
  }

  lemma SkipTo(zs: seq<seq<byte>>, sizes: seq<byte>, from: nat, k: nat)
    requires from + k < |zs| && sizes == Concat(Lengths(zs)) && forall i :: 0 <= i < |zs| ==> |zs[i]| < U32
    ensures var skip := SumFrom(sizes, from, k);
      skip.Size? && |Concat(zs[..from])| + skip.n == |Concat(zs[..from + k])|
    ensures SizeAt(sizes, from + k) == Size(|zs[from + k]|)
  {
    TableSum(zs, from);
    TableSum(zs, from + k);
    SumFromIs(sizes, from, k);
    TableEntry(zs, from + k);
  }

  lemma NextItem(f: seq<byte>, c: Codec, end: nat, zs: seq<seq<byte>>, datas: seq<seq<byte>>, sizes: seq<byte>,
                 at: nat, from: nat, k: nat)
    requires ItemsAt(f, c, end, zs, datas) && from + k < |zs| && sizes == Concat(Lengths(zs))
    requires at == end + |Concat(zs[..from])|
    ensures var skip, size := SumFrom(sizes, from, k), SizeAt(sizes, from + k);
      skip.Size? && size.Size? && ReadItem(f, c, at + skip.n, size.n) == Got(datas[from + k])
  {
    SizesBound(f, c, end, zs, datas);
    SkipTo(zs, sizes, from, k);
    ItemReads(f, c, end, zs, datas, from + k, at + SumFrom(sizes, from, k).n, |zs[from + k]|);
  }

  lemma OneMoreItem(f: seq<byte>, c: Codec, sizes: seq<byte>, at: int, from: int, count: nat, x: seq<byte>,
                    y: seq<byte>)
    requires ItemsFrom(f, c, sizes, at, from, count) == Got(x)
    requires var skip, size := SumFrom(sizes, from, count), SizeAt(sizes, from + count);
      skip.Size? && size.Size? && ReadItem(f, c, at + skip.n, size.n) == Got(y)
    ensures ItemsFrom(f, c, sizes, at, from, count + 1) == Got(x + y)
  {
  }

  /** Consecutive items are read back as one string of bytes. */
  lemma {:induction false} ItemsRead(f: seq<byte>, c: Codec, end: nat, zs: seq<seq<byte>>, datas: seq<seq<byte>>,
                                     sizes: seq<byte>, at: nat, from: nat, count: nat)
    requires ItemsAt(f, c, end, zs, datas) && from + count <= |zs| && sizes == Concat(Lengths(zs))
    requires at == end + |Concat(zs[..from])|
    ensures ItemsFrom(f, c, sizes, at, from, count) == Got(Concat(datas[from..from + count]))
  {
    if count > 0 {
      var k := count - 1;
      ItemsRead(f, c, end, zs, datas, sizes, at, from, k);
      NextItem(f, c, end, zs, datas, sizes, at, from, k);
      OneMoreItem(f, c, sizes, at, from, k, Concat(datas[from..from + k]), datas[from + k]);
      LastOfRange(datas, from, k);
    }
  }

  lemma LastOfRange(datas: seq<seq<byte>>, from: nat, k: nat)
    requires from + k < |datas|
    ensures Concat(datas[from..from + k + 1]) == Concat(datas[from..from + k]) + datas[from + k]
  {
    assert datas[from..from + k + 1][..k] == datas[from..from + k];
  }

  // ---- records of a well-formed pile ----

  lemma StartIs(f: seq<byte>, begin: nat, i: nat, h: nat, off: int)
    requires EndOf(f, i) == Off(off) && h == begin + i + 1 && i + 1 < U32
    ensures StartOf(f, begin, h) == Off(off)
  {
    assert (h - begin) % U32 == i + 1;
  }

  lemma HeldRecord(f: seq<byte>, slots: seq<seq<byte>>, log: seq<seq<byte>>, i: nat)
    requires Holds(f, slots, log) && i < |log|
    ensures Has(f, Offset(log, i), log[i])
  {
    assert RecordHeld(f, log, i);
  }

  /** Where record `i` starts, as the readers of its height find it. */
  lemma RecordAt(f: seq<byte>, begin: nat, gen: seq<byte>, log: seq<seq<byte>>, i: nat, h: nat, off: nat)
    requires WellFormed(f, begin, gen, log) && i < |log| && h == begin + i + 1 && off == Offset(log, i)
    ensures StartOf(f, begin, h) == Off(off) && Has(f, off, log[i])
  {
    EndIs(f, log, i);
    StartIs(f, begin, i, h, off);
    HeldRecord(f, Slots(log), log, i);
  }

  lemma HashHeld(f: seq<byte>, off: nat, r: Record)
    requires Has(f, off, Encode(r))
    ensures Has(f, off, r.hash)
  {
    assert Pieces(r)[0] == r.hash;
    assert Concat(Pieces(r)[..0]) == [];
    PieceHeld(f, off, Pieces(r), 0);
  }

  lemma HashReads(f: seq<byte>, begin: nat, h: nat, off: nat, hash: seq<byte>)
    requires StartOf(f, begin, h) == Off(off) && Has(f, off, hash) && |hash| == 32 && h <= begin + CHUNK_UNIT < U32
    ensures GetHash(f, begin, h) == Got(hash)
  {
    HasReads(f, off, hash);
  }

  /** The hash of every stored height is read back. */
  lemma HashBack(f: seq<byte>, begin: nat, gen: seq<byte>, log: seq<seq<byte>>, i: nat, h: nat, r: Record)
    requires WellFormed(f, begin, gen, log) && i < |log| && h == begin + i + 1
    requires |r.hash| == 32 && log[i] == Encode(r)
    ensures GetHash(f, begin, h) == Got(r.hash)
  {
    var off := Offset(log, i);
    RecordAt(f, begin, gen, log, i, h, off);
    HashHeld(f, off, r);
    HashReads(f, begin, h, off, r.hash);
  }

  /** Nothing stops a read of the hash one above the head: it fails only if the file ends with its last record,
      and else gives whatever follows that. */
  lemma HashBeyond(f: seq<byte>, begin: nat, gen: seq<byte>, log: seq<seq<byte>>, n: nat, off: nat)
    requires WellFormed(f, begin, gen, log) && n == |log| < CHUNK_UNIT && off == Offset(log, n)
    ensures GetHash(f, begin, begin + n + 1).Failed? <==> |f| == off
  {
    EndIs(f, log, n);
    HashFrom(f, begin, n, off, begin + n + 1);
  }

  lemma HashFrom(f: seq<byte>, begin: nat, n: nat, off: nat, h: nat)
    requires EndOf(f, n) == Off(off) && n < CHUNK_UNIT && begin + CHUNK_UNIT < U32 && off <= |f| && h == begin + n + 1
    ensures GetHash(f, begin, h).Failed? <==> |f| == off
  {
    StartIs(f, begin, n, h, off);
  }

  lemma TableForIs(f: seq<byte>, head: nat, begin: nat, h: nat, off: int, wanted: int)
    requires StartOf(f, begin, h) == Off(off) && begin < h <= head <= begin + CHUNK_UNIT < U32
    ensures TableFor(f, head, begin, h, wanted) == ReadTable(f, off, wanted)
  {
  }

  // ---- items of a packed record ----

  lemma PackedItems(f: seq<byte>, off: nat, c: Codec, hash: seq<byte>, datas: seq<seq<byte>>, r: Record, end: nat)
    requires ValidCodec(c) && Fits(c, datas) && |hash| == 32 && r == Packed(c, hash, datas) && Has(f, off, Encode(r))
    requires end == off + 33 + 4 * |datas|
    ensures ItemsAt(f, c, end, r.zdatas, datas)
  {
    forall i | 0 <= i < |datas| ensures ItemAt(f, c, end, r.zdatas, datas, i) {
      ItemHeld(f, off, r, i);
    }
  }

  lemma PackedValid(c: Codec, hash: seq<byte>, datas: seq<seq<byte>>)
    requires ValidCodec(c) && Fits(c, datas) && |hash| == 32 && |datas| <= 255
    ensures ValidRecord(Packed(c, hash, datas))
  {
  }

  /** The table of a record of at most 63 items is read whole. */
  lemma FewItems(c: Codec, hash: seq<byte>, datas: seq<seq<byte>>, f: seq<byte>, off: nat, r: Record, t: seq<byte>,
                 wanted: int)
    requires ValidCodec(c) && Fits(c, datas) && |hash| == 32 && |datas| <= 63
    requires r == Packed(c, hash, datas) && Has(f, off, Encode(r))
    requires t == Concat(Lengths(r.zdatas))
    ensures ReadTable(f, off, wanted) ==
      if wanted > |datas| then NoTable(InvalidDataIndex) else Table(|datas|, t, off + 33 + 4 * |datas|)
  {
    PackedValid(c, hash, datas);
    TableRead(f, off, r, t, wanted);
    assert 4 * |datas| % 256 == 4 * |datas| && t[..4 * |datas|] == t;
  }

  lemma DataFrom(f: seq<byte>, c: Codec, end: nat, zs: seq<seq<byte>>, datas: seq<seq<byte>>, t: seq<byte>, index: nat)
    requires ItemsAt(f, c, end, zs, datas) && index < |datas| && t == Concat(Lengths(zs))
    ensures ItemFrom(f, c, Table(|datas|, t, end), index) == Got(datas[index])
  {
    SizesBound(f, c, end, zs, datas);
    assert ItemAt(f, c, end, zs, datas, index);
    ItemRead(f, end, zs, c, Table(|datas|, t, end), index);
  }

  lemma DatasFrom(f: seq<byte>, c: Codec, end: nat, zs: seq<seq<byte>>, datas: seq<seq<byte>>, t: seq<byte>,
                  from: nat, count: nat)
    requires ItemsAt(f, c, end, zs, datas) && from + count <= |datas| && t == Concat(Lengths(zs))
    ensures var skip := SumOf(t, from);
      skip.Size? && ItemsFrom(f, c, t, end + skip.n, from, count) == Got(Concat(datas[from..from + count]))
  {
    SizesBound(f, c, end, zs, datas);
    TableSum(zs, from);
    ItemsRead(f, c, end, zs, datas, t, end + |Concat(zs[..from])|, from, count);
  }

  // ---- reading back ----

  /** Every item of a record of at most 63 items is read back, and an index beyond them is refused. */
  lemma DataBack(f: seq<byte>, begin: nat, gen: seq<byte>, log: seq<seq<byte>>, i: nat, head: nat, h: nat, c: Codec,
                 hash: seq<byte>, datas: seq<seq<byte>>, r: Record, index: nat)
    requires WellFormed(f, begin, gen, log) && i < |log| && h == begin + i + 1 && head == begin + |log|
    requires ValidCodec(c) && Fits(c, datas) && |hash| == 32 && |datas| <= 63
    requires r == Packed(c, hash, datas) && log[i] == Encode(r)
    ensures GetData(f, c, head, begin, h, index) == if index < |datas| then Got(datas[index])
      else Failed(InvalidDataIndex)
  {
    var off := Offset(log, i);
    RecordAt(f, begin, gen, log, i, h, off);
    TableForIs(f, head, begin, h, off, index + 1);
    DataAt(f, off, head, begin, h, c, hash, datas, r, index);
  }

  lemma DataAt(f: seq<byte>, off: nat, head: nat, begin: nat, h: nat, c: Codec,
               hash: seq<byte>, datas: seq<seq<byte>>, r: Record, index: nat)
    requires TableFor(f, head, begin, h, index + 1) == ReadTable(f, off, index + 1) && Has(f, off, Encode(r))
    requires ValidCodec(c) && Fits(c, datas) && |hash| == 32 && |datas| <= 63 && r == Packed(c, hash, datas)
    ensures GetData(f, c, head, begin, h, index) == if index < |datas| then Got(datas[index])
      else Failed(InvalidDataIndex)
  {
    var t, end := Concat(Lengths(r.zdatas)), off + 33 + 4 * |datas|;
    FewItems(c, hash, datas, f, off, r, t, index + 1);
    if index < |datas| {
      PackedItems(f, off, c, hash, datas, r, end);
      DataFrom(f, c, end, r.zdatas, datas, t, index);
    }
  }

  lemma LastLost(f: seq<byte>, begin: nat, gen: seq<byte>, log: seq<seq<byte>>, i: nat, head: nat, h: nat, c: Codec,
                 r: Record)
    requires WellFormed(f, begin, gen, log) && i < |log| && h == begin + i + 1 && head == begin + |log|
    requires ValidRecord(r) && 64 <= |r.zdatas| && log[i] == Encode(r)
    ensures GetData(f, c, head, begin, h, |r.zdatas| - 1) == Panic
  {
    var off, t := Offset(log, i), Concat(Lengths(r.zdatas));
    RecordAt(f, begin, gen, log, i, h, off);
    TableForIs(f, head, begin, h, off, |r.zdatas|);
    TableRead(f, off, r, t, |r.zdatas|);
    LastPanics(f, off, r, c, t);
  }

  /** All items of a stored record can be read back if and only if there are at most 63 of them: the readers
      compute the size of the size table in one byte. */
  lemma AllBackIffFew(f: seq<byte>, begin: nat, gen: seq<byte>, log: seq<seq<byte>>, i: nat, head: nat, h: nat,
                      c: Codec,
                      hash: seq<byte>, datas: seq<seq<byte>>, r: Record)
    requires WellFormed(f, begin, gen, log) && i < |log| && h == begin + i + 1 && head == begin + |log|
    requires ValidCodec(c) && Fits(c, datas) && |hash| == 32 && |datas| <= 255
    requires r == Packed(c, hash, datas) && log[i] == Encode(r)
    ensures (forall k :: 0 <= k < |datas| ==> GetData(f, c, head, begin, h, k) == Got(datas[k])) <==> |datas| <= 63
  {
    if |datas| <= 63 {
      forall k | 0 <= k < |datas| ensures GetData(f, c, head, begin, h, k) == Got(datas[k]) {
        DataBack(f, begin, gen, log, i, head, h, c, hash, datas, r, k);
      }
    } else {
      PackedValid(c, hash, datas);
      LastLost(f, begin, gen, log, i, head, h, c, r);
    }
  }

  /** A range of items of a record of at most 63 items is read back in one piece. */
  lemma DatasBack(f: seq<byte>, begin: nat, gen: seq<byte>, log: seq<seq<byte>>, i: nat, head: nat, h: nat, c: Codec,
                  hash: seq<byte>, datas: seq<seq<byte>>, r: Record, from: nat, count: nat)
    requires WellFormed(f, begin, gen, log) && i < |log| && h == begin + i + 1 && head == begin + |log|
    requires ValidCodec(c) && Fits(c, datas) && |hash| == 32 && |datas| <= 63
    requires r == Packed(c, hash, datas) && log[i] == Encode(r)
    ensures GetDatas(f, c, head, begin, h, from, count) ==
      if from + count <= |datas| then Got(Concat(datas[from..from + count])) else Failed(InvalidDataIndex)
  {
    var off := Offset(log, i);
    RecordAt(f, begin, gen, log, i, h, off);
    TableForIs(f, head, begin, h, off, from + count);
    DatasAt(f, off, head, begin, h, c, hash, datas, r, from, count);
  }

  lemma DatasAt(f: seq<byte>, off: nat, head: nat, begin: nat, h: nat, c: Codec,
                hash: seq<byte>, datas: seq<seq<byte>>, r: Record, from: nat, count: nat)
    requires TableFor(f, head, begin, h, from + count) == ReadTable(f, off, from + count) && Has(f, off, Encode(r))
    requires ValidCodec(c) && Fits(c, datas) && |hash| == 32 && |datas| <= 63 && r == Packed(c, hash, datas)
    ensures GetDatas(f, c, head, begin, h, from, count) ==
      if from + count <= |datas| then Got(Concat(datas[from..from + count])) else Failed(InvalidDataIndex)
  {
    var t, end := Concat(Lengths(r.zdatas)), off + 33 + 4 * |datas|;
    FewItems(c, hash, datas, f, off, r, t, from + count);
    if from + count <= |datas| {
      PackedItems(f, off, c, hash, datas, r, end);
      DatasFrom(f, c, end, r.zdatas, datas, t, from, count);
    }
  }
}
