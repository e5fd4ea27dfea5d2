/** The block log over many piles, each holding CHUNK_UNIT heights. */
module PileDB {
  import opened Bytes
  import opened PileFormat
  import opened PileCrash
  import opened PileRead
  import opened PileRuns
  import opened PileLimits
  import opened PileNode


  /** The records that chunk `i` holds. */
  function Part(log: Log, i: nat): Log {
    var lo, hi := i * CHUNK_UNIT, (i + 1) * CHUNK_UNIT;
    if lo >= |log| then [] else if hi <= |log| then log[lo..hi] else log[lo..]
  }

  /** All chunks but the last are full, and the last holds the rest. */
  predicate Chunked(log: Log, n: nat) {
    n > 0 && (n - 1) * CHUNK_UNIT <= |log| <= n * CHUNK_UNIT
  }

  /** Pile `i` of a log. */
  ghost predicate Chunk(p: Pile, gen: seq<byte>, log: Log, i: nat)
    reads p`head, p.file`data
  {
    && p.begin == i * CHUNK_UNIT && p.gen == gen && p.head == p.begin + |Part(log, i)|
    && WellFormed(p.file.data, p.begin, gen, Part(log, i))
  }

  lemma PartSizes(log: Log, n: nat, i: nat)
    requires Chunked(log, n) && i < n
    ensures |Part(log, i)| == if i < n - 1 then CHUNK_UNIT else |log| - (n - 1) * CHUNK_UNIT
  {
    if i < n - 1 {
      assert (i + 1) * CHUNK_UNIT <= (n - 1) * CHUNK_UNIT;
    }
  }

  /** Appending leaves the earlier chunks alone and extends the last. */
  lemma PartSnoc(log: Log, n: nat, x: seq<byte>, i: nat)
    requires Chunked(log, n) && i < n && |log| < n * CHUNK_UNIT
    ensures Chunked(log + [x], n)
    ensures Part(log + [x], i) == if i < n - 1 then Part(log, i) else Part(log, i) + [x]
  {
    PartSizes(log, n, i);
    if i < n - 1 {
      assert (i + 1) * CHUNK_UNIT <= (n - 1) * CHUNK_UNIT;
    }
  }

  /** Once a log has filled its chunks, one more chunk is empty. */
  lemma PartNext(log: Log, n: nat)
    requires Chunked(log, n) && |log| == n * CHUNK_UNIT
    ensures Chunked(log, n + 1) && Part(log, n) == []
  {
  }

  /** The last chunk is full when the log fills `n` chunks. */
  lemma FullIff(log: Log, n: nat, head: nat, begin: nat)
    requires Chunked(log, n) && begin == (n - 1) * CHUNK_UNIT && head == begin + |Part(log, n - 1)|
    ensures begin + CHUNK_UNIT == n * CHUNK_UNIT
    ensures head - begin >= CHUNK_UNIT ==> |log| == n * CHUNK_UNIT
    ensures head - begin < CHUNK_UNIT ==> |log| < n * CHUNK_UNIT
  {
    PartSizes(log, n, n - 1);
  }

  /** Height `h` of a log is in the chunk that its readers look at. */
  lemma PartAt(log: Log, n: nat, h: nat)
    requires Chunked(log, n) && 0 < h <= |log|
    ensures var i := (h - 1) / CHUNK_UNIT;
      && i < n && i * CHUNK_UNIT < h <= i * CHUNK_UNIT + |Part(log, i)|
      && Part(log, i)[h - i * CHUNK_UNIT - 1] == log[h - 1]
  {
    var i := (h - 1) / CHUNK_UNIT;
    assert i * CHUNK_UNIT <= h - 1 < (i + 1) * CHUNK_UNIT;
  }

  lemma ChunkSame(p: Pile, gen: seq<byte>, log: Log, log': Log, i: nat)
    requires Chunk(p, gen, log, i) && Part(log, i) == Part(log', i)
    ensures Chunk(p, gen, log', i)
  {
  }

  lemma ChunkMade(p: Pile, gen: seq<byte>, log: Log, i: nat, part: Log)
    requires Part(log, i) == part && p.begin == i * CHUNK_UNIT && p.gen == gen && p.head == p.begin + |part|
    requires WellFormed(p.file.data, p.begin, gen, part)
    ensures Chunk(p, gen, log, i)
  {
  }

  /** The last pile takes one more record, and the others stay. */
  lemma ChunksGrow(piles: seq<Pile>, gen: seq<byte>, log: Log, x: seq<byte>, log': Log, part: Log)
    requires Chunked(log, |piles|) && |log| < |piles| * CHUNK_UNIT && log' == log + [x]
    requires forall i :: 0 <= i < |piles| - 1 ==> Chunk(piles[i], gen, log, i)
    requires var p := piles[|piles| - 1];
      && part == Part(log, |piles| - 1) + [x] && p.begin == (|piles| - 1) * CHUNK_UNIT && p.gen == gen
      && p.head == p.begin + |part| && WellFormed(p.file.data, p.begin, gen, part)
    ensures Chunked(log', |piles|) && forall i :: 0 <= i < |piles| ==> Chunk(piles[i], gen, log', i)
  {
    forall i | 0 <= i < |piles| ensures Chunk(piles[i], gen, log', i) {
      PartSnoc(log, |piles|, x, i);
      if i < |piles| - 1 {
        ChunkSame(piles[i], gen, log, log', i);
      } else {
        ChunkMade(piles[i], gen, log', i, part);
      }
    }
    PartSnoc(log, |piles|, x, 0);
  }

  /** `r` is the hash of the encoded record `x`. */
  ghost predicate IsHash(x: seq<byte>, r: Got) {
    forall rec: Record :: |rec.hash| == 32 && x == Encode(rec) ==> r == Got(rec.hash)
  }

  /** `r` is item `index` of the data packed into `x`, of which there are at most 63. */
  ghost predicate IsItem(x: seq<byte>, c: Codec, index: nat, r: Got) {
    forall hash, datas :: |hash| == 32 && |datas| <= 63 && Fits(c, datas) && x == Encode(Packed(c, hash, datas))
      ==> r == if index < |datas| then Got(datas[index]) else Failed(InvalidDataIndex)
  }

  ghost predicate AreItems(x: seq<byte>, c: Codec, from: nat, count: nat, r: Got) {
    forall hash, datas :: |hash| == 32 && |datas| <= 63 && Fits(c, datas) && x == Encode(Packed(c, hash, datas))
      ==> r == if from + count <= |datas| then Got(Concat(datas[from..from + count])) else Failed(InvalidDataIndex)
  }

  datatype DBCode = Stored | TooManyDatas | WrongHeight | WriteFailed

  /** Creating a pile file. */
  method NewPile(gen: seq<byte>, base: nat) returns (p: Pile)
    requires ValidInfo(base, gen)
    ensures fresh(p) && fresh(p.file) && p.head == base && p.begin == base && p.gen == gen
    ensures p.file.data == Run([], NewOps(base, gen))
  {
    var file := new File([]);
    var h, z := ToLE(base, 4), Zeros(HEADER_SIZE);
    var meta := MetaBytes(h, Info(base, gen));
    assert file.ops == [] + [];
    WriteStep(file, z, [], [], []);
    var _ := file.Seek(0);
    WriteStep(file, meta, [], [], [] + [Write(0, z)]);
    assert [] + [Write(0, z)] + [Write(0, meta)] == NewOps(base, gen);
    p := new Pile(file, base, base, gen);
  }

  class DB {
    var piles: seq<Pile>
    const gen: seq<byte>
    var syncMode: bool
    /** Every record stored so far, encoded; height `h` is entry `h - 1`. */
    ghost var log: Log

    ghost predicate Valid()
      reads this, piles, set p | p in piles :: p.file
    {
      && Chunked(log, |piles|) && |gen| == 32
      && (forall i, j :: 0 <= i < j < |piles| ==> piles[i] != piles[j] && piles[i].file != piles[j].file)
      && (forall i :: 0 <= i < |piles| ==> Chunk(piles[i], gen, log, i))
    }

    function Last(): Pile
      requires |piles| > 0
      reads this
    {
      piles[|piles| - 1]
    }

    constructor (gen: seq<byte>)
      requires |gen| == 32
      ensures Valid() && log == [] && fresh(piles) && fresh(set p | p in piles :: p.file)
    {
      this.gen := gen;
      var p := NewPile(gen, 0);
      piles, log, syncMode := [p], [], false;
      new;
      NewWellFormed(0, gen);
    }

    method AddPile(p: Pile)
      requires Valid() && |log| == |piles| * CHUNK_UNIT && |piles| * CHUNK_UNIT + CHUNK_UNIT < U32
      requires p !in piles && forall q :: q in piles ==> q.file != p.file
      requires p.head == p.begin == |piles| * CHUNK_UNIT && p.gen == gen && p.file.data == Run([], NewOps(p.begin, gen))
      modifies this`piles
      ensures Valid() && piles == old(piles) + [p]
    {
      PartNext(log, |piles|);
      NewWellFormed(p.begin, gen);
      assert Chunk(p, gen, log, |piles|);
      piles := piles + [p];
    }

    /** A new last pile, for a log that fills the others. */
    method Grow(base: nat) returns (p: Pile)
      requires Valid() && |log| == |piles| * CHUNK_UNIT == base && base + CHUNK_UNIT < U32
      modifies this`piles
      ensures Valid() && piles == old(piles) + [p] && fresh(p) && fresh(p.file)
    {
      p := NewPile(gen, base);
      AddPile(p);
    }

    /** The pile for the next height: the last one, or a new one when the last is full. */
    method Roll() returns (p: Pile)
      requires Valid() && |piles| * CHUNK_UNIT + CHUNK_UNIT < U32
      modifies this`piles, piles[|piles| - 1].file`ops
      ensures Valid() && |log| < |piles| * CHUNK_UNIT && p == piles[|piles| - 1]
      ensures piles == old(piles) || (piles == old(piles) + [p] && fresh(p) && fresh(p.file))
      ensures Part(log, |piles| - 1) == [] || piles == old(piles)
    {
      p := piles[|piles| - 1];
      assert Chunk(p, gen, log, |piles| - 1);
      FullIff(log, |piles|, p.head, p.begin);
      if p.head - p.begin >= CHUNK_UNIT {
        p.file.SyncAll();
        PartNext(log, |piles|);
        p := Grow(p.begin + CHUNK_UNIT);
      }
    }

    /** Appends to the last pile, which has room. */
    method StoreIn(p: Pile, c: Codec, sync: bool, hash: seq<byte>, datas: seq<seq<byte>>, ghost cs: seq<seq<byte>>)
      requires Valid() && |log| < |piles| * CHUNK_UNIT && |piles| * CHUNK_UNIT < U32 && p == piles[|piles| - 1]
      requires |hash| == 32 && cs == Pieces(Packed(c, hash, datas)) && HasRoom(Part(log, |piles| - 1), Concat(cs))
      modifies this`log, p`head, p.file
      ensures Valid() && log == old(log) + [Concat(cs)]
    {
      ghost var n := |piles|;
      ghost var part := Part(log, n - 1);
      PartSizes(log, n, n - 1);
      assert Chunk(p, gen, log, n - 1);
      StoreChunk(p, c, sync, hash, datas, gen, part, cs);
      ghost var was, x := log, Concat(cs);
      log := log + [x];
      ChunksGrow(piles, gen, was, x, log, part + [x]);
    }

    /** The height of the last record. */
    method Head() returns (h: nat)
      requires Valid()
      ensures h == |log|
    {
      var p := piles[|piles| - 1];
      assert Chunk(p, gen, log, |piles| - 1);
      PartSizes(log, |piles|, |piles| - 1);
      h := p.head;
    }

    /** Makes room for one more record and stores it. */
    method Place(c: Codec, sync: bool, hash: seq<byte>, datas: seq<seq<byte>>, ghost cs: seq<seq<byte>>)
      requires Valid() && |piles| * CHUNK_UNIT + CHUNK_UNIT < U32
      requires |hash| == 32 && cs == Pieces(Packed(c, hash, datas))
      requires HasRoom(Part(log, |piles| - 1), Concat(cs)) && HasRoom([], Concat(cs))
      modifies this`log, this`piles, Last()`head, Last().file
      ensures Valid() && log == old(log) + [Concat(cs)]
    {
      var p := Roll();
      StoreIn(p, c, sync, hash, datas, cs);
    }

    /** Stores one record at the height that follows the last one, in the last chunk or a new one. */
    method AppendData(c: Codec, due: bool, height: nat, hash: seq<byte>, datas: seq<seq<byte>>,
                      ghost cs: seq<seq<byte>>)
        returns (code: DBCode)
      requires Valid() && |piles| * CHUNK_UNIT + CHUNK_UNIT < U32
      requires |hash| == 32 && cs == Pieces(Packed(c, hash, datas))
      requires HasRoom(Part(log, |piles| - 1), Concat(cs)) && HasRoom([], Concat(cs))
      modifies this`log, this`piles, Last()`head, Last().file
      ensures Valid()
      ensures code == (if |datas| > 255 then TooManyDatas else if height != old(|log|) + 1 then WrongHeight else Stored)
      ensures log == old(log) + if code.Stored? then [Concat(cs)] else []
    {
      if |datas| > 255 { return TooManyDatas; }
      var head := Head();
      if height != head + 1 { return WrongHeight; }
      Place(c, syncMode || due, hash, datas, cs);
      code := Stored;
    }

    /** The pile that readers of a height use. */
    method Find(height: nat) returns (found: bool, idx: nat)
      requires Valid() && height > 0
      ensures found <==> idx < |piles|
      ensures idx == (height - 1) / CHUNK_UNIT
      ensures height <= |log| ==> found
    {
      idx := (height - 1) / CHUNK_UNIT;
      found := idx < |piles|;
      if height <= |log| { PartAt(log, |piles|, height); }
    }

    /** The hash of a stored height; height 0 has the genesis hash. */
    method ReadHash(height: nat) returns (r: Got)
      requires Valid()
      modifies set p | p in piles :: p.file
      ensures Valid()
      ensures height == 0 ==> r == Got(gen)
      ensures 0 < height <= |log| ==> IsHash(log[height - 1], r)
    {
      if height == 0 { return Got(gen); }
      var found, idx := Find(height);
      if !found { return Failed(InvalidHeight); }
      r := piles[idx].ReadHash(height);
      forall rec: Record | 0 < height <= |log| && |rec.hash| == 32 && log[height - 1] == Encode(rec)
        ensures r == Got(rec.hash)
      {
        ChunkHash(piles[idx], gen, log, |piles|, idx, height, rec);
      }
    }

    /** A data item of a stored height. */
    method ReadData(c: Codec, height: nat, index: nat) returns (r: Got)
      requires Valid() && ValidCodec(c)
      modifies set p | p in piles :: p.file
      ensures Valid()
      ensures height == 0 || height > |log| ==> r == Failed(InvalidHeight)
      ensures 0 < height <= |log| ==> IsItem(log[height - 1], c, index, r)
    {
      if height == 0 { return Failed(InvalidHeight); }
      var found, idx := Find(height);
      if !found { return Failed(InvalidHeight); }
      r := piles[idx].ReadData(c, height, index);
      if height > |log| {
        ChunkBeyond(piles[idx], gen, log, |piles|, idx, height);
      }
      forall hash, datas | height <= |log| && |hash| == 32 && |datas| <= 63 && Fits(c, datas)
                           && log[height - 1] == Encode(Packed(c, hash, datas))
        ensures r == if index < |datas| then Got(datas[index]) else Failed(InvalidDataIndex)
      {
        ChunkData(piles[idx], gen, log, |piles|, idx, c, height, hash, datas, index);
      }
    }

    /** A range of data items of a stored height. */
    method ReadDatas(c: Codec, height: nat, from: nat, count: nat) returns (r: Got)
      requires Valid() && ValidCodec(c)
      modifies set p | p in piles :: p.file
      ensures Valid()
      ensures height == 0 || height > |log| ==> r == Failed(InvalidHeight)
      ensures 0 < height <= |log| ==> AreItems(log[height - 1], c, from, count, r)
    {
      if height == 0 { return Failed(InvalidHeight); }
      var found, idx := Find(height);
      if !found { return Failed(InvalidHeight); }
      r := piles[idx].ReadDatas(c, height, from, count);
      if height > |log| {
        ChunkBeyond(piles[idx], gen, log, |piles|, idx, height);
      }
      forall hash, datas | height <= |log| && |hash| == 32 && |datas| <= 63 && Fits(c, datas)
                           && log[height - 1] == Encode(Packed(c, hash, datas))
        ensures r == if from + count <= |datas| then Got(Concat(datas[from..from + count]))
          else Failed(InvalidDataIndex)
      {
        ChunkDatas(piles[idx], gen, log, |piles|, idx, c, height, hash, datas, from, count);
      }
    }
  }

  /** The file stays below the largest file size. */
  ghost predicate HasRoom(part: Log, x: seq<byte>) {
    Offset(part, |part|) + |x| < I64
  }

  /** Appending to one chunk that is not full. */
  method StoreChunk(p: Pile, c: Codec, sync: bool, hash: seq<byte>, datas: seq<seq<byte>>, ghost gen: seq<byte>,
                    ghost part: Log, ghost cs: seq<seq<byte>>)
    requires WellFormed(p.file.data, p.begin, gen, part) && p.head == p.begin + |part| && |part| < CHUNK_UNIT
    requires |hash| == 32 && cs == Pieces(Packed(c, hash, datas)) && HasRoom(part, Concat(cs))
    modifies p`head, p.file
    ensures p.head == old(p.head) + 1 && WellFormed(p.file.data, p.begin, gen, part + [Concat(cs)])
  {
    ghost var f, off := p.file.data, Offset(part, |part|);
    EndIs(f, part, |part|);
    var _ := p.AppendData(c, sync, p.head + 1, hash, datas, cs);
    ExtendsTo(f, p.file.data, p.begin, gen, part, off, cs, sync);
  }

  lemma ExtendsTo(f: seq<byte>, g: seq<byte>, begin: nat, gen: seq<byte>, part: Log, off: nat, cs: seq<seq<byte>>,
                  sync: bool)
    requires WellFormed(f, begin, gen, part) && |part| < CHUNK_UNIT && HasRoom(part, Concat(cs))
    requires off == Offset(part, |part|) && g == Run(f, AppendOps(off, |part|, begin + |part|, cs, sync))
    ensures WellFormed(g, begin, gen, part + [Concat(cs)])
  {
    AppendExtends(f, begin, gen, part, cs, sync);
  }

  lemma ChunkHash(p: Pile, gen: seq<byte>, log: Log, n: nat, i: nat, h: nat, r: Record)
    requires Chunked(log, n) && 0 < h <= |log| && i == (h - 1) / CHUNK_UNIT && Chunk(p, gen, log, i)
    requires |r.hash| == 32 && log[h - 1] == Encode(r)
    ensures GetHash(p.file.data, p.begin, h) == Got(r.hash)
  {
    PartAt(log, n, h);
    HashBack(p.file.data, p.begin, gen, Part(log, i), h - p.begin - 1, h, r);
  }

  lemma ChunkData(p: Pile, gen: seq<byte>, log: Log, n: nat, i: nat, c: Codec, h: nat, hash: seq<byte>,
                  datas: seq<seq<byte>>, index: nat)
    requires Chunked(log, n) && 0 < h <= |log| && i == (h - 1) / CHUNK_UNIT && Chunk(p, gen, log, i)
    requires ValidCodec(c) && Fits(c, datas) && |hash| == 32 && |datas| <= 63
    requires log[h - 1] == Encode(Packed(c, hash, datas))
    ensures GetData(p.file.data, c, p.head, p.begin, h, index) ==
      if index < |datas| then Got(datas[index]) else Failed(InvalidDataIndex)
  {
    PartAt(log, n, h);
    DataBack(p.file.data, p.begin, gen, Part(log, i), h - p.begin - 1, p.head, h, c, hash, datas,
      Packed(c, hash, datas), index);
  }

  lemma ChunkDatas(p: Pile, gen: seq<byte>, log: Log, n: nat, i: nat, c: Codec, h: nat, hash: seq<byte>,
                   datas: seq<seq<byte>>, from: nat, count: nat)
    requires Chunked(log, n) && 0 < h <= |log| && i == (h - 1) / CHUNK_UNIT && Chunk(p, gen, log, i)
    requires ValidCodec(c) && Fits(c, datas) && |hash| == 32 && |datas| <= 63
    requires log[h - 1] == Encode(Packed(c, hash, datas))
    ensures GetDatas(p.file.data, c, p.head, p.begin, h, from, count) ==
      if from + count <= |datas| then Got(Concat(datas[from..from + count])) else Failed(InvalidDataIndex)
  {
    PartAt(log, n, h);
    DatasBack(p.file.data, p.begin, gen, Part(log, i), h - p.begin - 1, p.head, h, c, hash, datas,
              Packed(c, hash, datas),
              from, count);
  }

  lemma ChunkBeyond(p: Pile, gen: seq<byte>, log: Log, n: nat, i: nat, h: nat)
    requires Chunked(log, n) && |log| < h && i == (h - 1) / CHUNK_UNIT && i < n && Chunk(p, gen, log, i)
    ensures h > p.head
  {
    PartSizes(log, n, i);
    assert i * CHUNK_UNIT <= h - 1;
    assert i == n - 1;
  }

  // ---- opening ----

  datatype Opened = Opened(piles: seq<LoadResult>) | MissingPile | CannotLoad(code: LoadCode)

  predicate AllLoaded(found: seq<LoadResult>) {
    forall i :: 0 <= i < |found| ==> found[i].Loaded?
  }

  /** The highest head height found, 0 if there is no file. */
  function MaxHead(found: seq<LoadResult>): (h: nat)
    requires AllLoaded(found)
    ensures forall i :: 0 <= i < |found| ==> found[i].head <= h
    ensures h > 0 ==> exists i :: 0 <= i < |found| && found[i].head == h
  {
    if found == [] then 0
    else
      var rest := MaxHead(found[..|found| - 1]);
      if rest < found[|found| - 1].head then found[|found| - 1].head else rest
  }

  predicate HasChunk(found: seq<LoadResult>, begin: nat)
    requires AllLoaded(found)
  {
    exists i :: 0 <= i < |found| && found[i].begin == begin
  }

  /** The files by their first height, and the highest head. */
  method Collect(found: seq<LoadResult>) returns (chunks: map<nat, LoadResult>, max: nat)
    requires AllLoaded(found)
    ensures max == MaxHead(found)
    ensures forall b :: b in chunks <==> HasChunk(found, b)
    ensures forall b :: b in chunks ==> chunks[b] in found && chunks[b].Loaded? && chunks[b].begin == b
  {
    max, chunks := 0, map[];
    for k := 0 to |found|
      invariant max == MaxHead(found[..k])
      invariant forall b :: b in chunks <==> HasChunk(found[..k], b)
      invariant forall b :: b in chunks ==> chunks[b] in found && chunks[b].Loaded? && chunks[b].begin == b
    {
      assert found[..k + 1][..k] == found[..k];
      HasChunkSnoc(found, k);
      chunks := chunks[found[k].begin := found[k]];
      if max < found[k].head { max := found[k].head; }
    }
    assert found[..|found|] == found;
  }

  /** Puts the files in order: it needs one for each chunk up to that of the highest head. */
  method Arrange(found: seq<LoadResult>) returns (r: Opened)
    requires AllLoaded(found)
    ensures !r.CannotLoad? && (r.Opened? <==> Openable(found, MaxHead(found)))
    ensures r.Opened? ==> |r.piles| == if MaxHead(found) == 0 then 0 else MaxHead(found) / CHUNK_UNIT + 1
    ensures r.Opened? ==> forall i :: 0 <= i < |r.piles| ==>
      r.piles[i] in found && r.piles[i].Loaded? && r.piles[i].begin == i * CHUNK_UNIT
  {
    var chunks, max := Collect(found);
    if max == 0 { return Opened([]); }
    var piles := [];
    for i := 0 to max / CHUNK_UNIT + 1
      invariant |piles| == i
      invariant forall j :: 0 <= j < i ==> HasChunk(found, j * CHUNK_UNIT)
      invariant forall j :: 0 <= j < i ==> piles[j] in found && piles[j].Loaded? && piles[j].begin == j * CHUNK_UNIT
    {
      if i * CHUNK_UNIT !in chunks {
        assert !HasChunk(found, i * CHUNK_UNIT);
        return MissingPile;
      }
      piles := piles + [chunks[i * CHUNK_UNIT]];
    }
    r := Opened(piles);
  }

  /** Opens the log from the files found: every one must load, and none may be missing. */
  method Open(found: seq<LoadResult>) returns (r: Opened)
    ensures r.CannotLoad? <==> !AllLoaded(found)
    ensures r.CannotLoad? ==> exists i :: 0 <= i < |found| && found[i] == Refused(r.code) && AllLoaded(found[..i])
    ensures AllLoaded(found) ==> (r.Opened? <==> Openable(found, MaxHead(found)))
    ensures r.Opened? ==> forall i :: 0 <= i < |r.piles| ==>
      r.piles[i] in found && r.piles[i].Loaded? && r.piles[i].begin == i * CHUNK_UNIT
  {
    for k := 0 to |found|
      invariant AllLoaded(found[..k])
    {
      if found[k].Refused? { return CannotLoad(found[k].code); }
      assert found[..k + 1] == found[..k] + [found[k]];
    }
    assert found[..|found|] == found;
    r := Arrange(found);
  }

  predicate Openable(found: seq<LoadResult>, max: nat)
    requires AllLoaded(found)
  {
    max == 0 || forall i :: 0 <= i <= max / CHUNK_UNIT ==> HasChunk(found, i * CHUNK_UNIT)
  }

  lemma HasChunkSnoc(found: seq<LoadResult>, k: nat)
    requires k < |found| && AllLoaded(found[..k]) && found[k].Loaded?
    ensures AllLoaded(found[..k + 1])
    ensures forall b :: HasChunk(found[..k + 1], b) <==> HasChunk(found[..k], b) || found[k].begin == b
  {
    var some := found[..k + 1];
    assert some == found[..k] + [found[k]];
    forall b ensures HasChunk(some, b) <==> HasChunk(found[..k], b) || found[k].begin == b {
      if found[k].begin == b { assert some[k].begin == b; }
      if HasChunk(found[..k], b) {
        var i :| 0 <= i < k && found[..k][i].begin == b;
        assert some[i].begin == b;
      }
    }
  }

  /** The files of a log of `len` records in `n` chunks. */
  predicate FilesOf(found: seq<LoadResult>, len: nat, n: nat) {
    && n > 0 && (n - 1) * CHUNK_UNIT <= len <= n * CHUNK_UNIT && |found| == n && AllLoaded(found)
    && (forall i :: 0 <= i < n ==> found[i].begin == i * CHUNK_UNIT)
    && (forall i :: 0 <= i < n ==> found[i].head <= len) && found[n - 1].head == len
  }

  /** What loading the file of chunk `i` gives. */
  predicate ChunkLoaded(r: LoadResult, log: Log, i: nat) {
    r.Loaded? && r.begin == i * CHUNK_UNIT && r.head == r.begin + |Part(log, i)|
  }

  /** That is what the files of a log are. */
  lemma FilesAre(found: seq<LoadResult>, log: Log, n: nat)
    requires Chunked(log, n) && |found| == n && forall i :: 0 <= i < n ==> ChunkLoaded(found[i], log, i)
    ensures FilesOf(found, |log|, n)
  {
    ChunkHead(found[n - 1], log, n, n - 1);
    forall i | 0 <= i < n ensures found[i].Loaded? && found[i].begin == i * CHUNK_UNIT && found[i].head <= |log| {
      assert ChunkLoaded(found[i], log, i);
      ChunkHead(found[i], log, n, i);
    }
  }

  lemma ChunkHead(r: LoadResult, log: Log, n: nat, i: nat)
    requires Chunked(log, n) && i < n && ChunkLoaded(r, log, i)
    ensures r.head <= |log| && (i == n - 1 ==> r.head == |log|)
  {
    PartSizes(log, n, i);
    assert i < n - 1 ==> (i + 1) * CHUNK_UNIT <= (n - 1) * CHUNK_UNIT;
  }

  lemma FilesOpen(found: seq<LoadResult>, len: nat, n: nat)
    requires FilesOf(found, len, n)
    ensures Openable(found, MaxHead(found)) <==> len == 0 || len < n * CHUNK_UNIT
  {
    assert MaxHead(found) == len;
    if 0 < len < n * CHUNK_UNIT {
      forall i | 0 <= i <= len / CHUNK_UNIT ensures HasChunk(found, i * CHUNK_UNIT) {
        assert found[i].begin == i * CHUNK_UNIT;
      }
    } else if len > 0 {
      NoNextChunk(found, len, n);
      assert len / CHUNK_UNIT == n;
    }
  }

  /** The file of chunk `i` of a log, and what loading it gives. */
  ghost predicate Reloaded(f: seq<byte>, gen: seq<byte>, log: Log, i: nat, r: LoadResult) {
    WellFormed(f, i * CHUNK_UNIT, gen, Part(log, i)) && r == LoadPile(f)
  }

  lemma CanReload(f: seq<byte>, begin: nat, gen: seq<byte>, part: Log, w: Heads)
    requires WellFormed(f, begin, gen, part) && w == HeadsAt(begin + |part|)
    ensures CanLoad(f, Info(begin, gen), begin, part)
  {
    RoundTrip32(begin + |part|);
    assert Loadable(f, w, Info(begin, gen), begin, part);
  }

  lemma FileLoads(f: seq<byte>, begin: nat, gen: seq<byte>, part: Log, r: LoadResult)
    requires WellFormed(f, begin, gen, part) && r == LoadPile(f)
    ensures r.Loaded? && r.begin == begin && r.head == begin + |part|
  {
    CanReload(f, begin, gen, part, HeadsAt(begin + |part|));
    Loads(f, begin, gen, part);
  }

  lemma PileLoads(f: seq<byte>, gen: seq<byte>, log: Log, i: nat, r: LoadResult)
    requires Reloaded(f, gen, log, i, r)
    ensures ChunkLoaded(r, log, i)
  {
    FileLoads(f, i * CHUNK_UNIT, gen, Part(log, i), r);
  }

  lemma AllReload(files: seq<seq<byte>>, gen: seq<byte>, log: Log, n: nat, found: seq<LoadResult>)
    requires |files| == n && |found| == n
    requires forall i :: 0 <= i < n ==> Reloaded(files[i], gen, log, i, found[i])
    ensures forall i :: 0 <= i < n ==> ChunkLoaded(found[i], log, i)
  {
    forall i | 0 <= i < n ensures ChunkLoaded(found[i], log, i) {
      PileLoads(files[i], gen, log, i, found[i]);
    }
  }

  /** The files of a log, as they are after any number of appends, all load; they can be opened as one log again if
      and only if it is empty or its last chunk is not full. */
  lemma ReopenIff(files: seq<seq<byte>>, gen: seq<byte>, log: Log, n: nat, found: seq<LoadResult>)
    requires Chunked(log, n) && |files| == n && |found| == n
    requires forall i :: 0 <= i < n ==> Reloaded(files[i], gen, log, i, found[i])
    ensures AllLoaded(found) && (Openable(found, MaxHead(found)) <==> log == [] || |log| < n * CHUNK_UNIT)
  {
    AllReload(files, gen, log, n, found);
    FilesAre(found, log, n);
    FilesOpen(found, |log|, n);
  }

  lemma NoNextChunk(found: seq<LoadResult>, len: nat, n: nat)
    requires FilesOf(found, len, n)
    ensures !HasChunk(found, n * CHUNK_UNIT)
  {
  }
}
