/** The bytes of a pile: a chunk file of the block log.

    A file holds 256 bytes of meta data (the head height three times, the first and last height,
    the genesis hash), one 8-byte slot for each height of the chunk with the offset at which the
    record of that height ends, and the records one after another. */
module PileFormat {
  import opened Bytes

  const CHUNK_UNIT: nat := 172800 * 30
  const META_SIZE: nat := 256
  const HEADER_SIZE: nat := CHUNK_UNIT * 8 + META_SIZE
  const U32: nat := 0x1_0000_0000
  const I64: nat := 0x8000_0000_0000_0000
  const U64: nat := 0x1_0000_0000_0000_0000

  /** What is appended for one height: a hash and the compressed data items. */
  datatype Record = Record(hash: seq<byte>, zdatas: seq<seq<byte>>)

  predicate ValidRecord(r: Record) {
    |r.hash| == 32 && |r.zdatas| <= 255 && forall i :: 0 <= i < |r.zdatas| ==> |r.zdatas[i]| < U32
  }

  function Concat(cs: seq<seq<byte>>): seq<byte> {
    if cs == [] then [] else Concat(cs[..|cs| - 1]) + cs[|cs| - 1]
  }

  function Lengths(zs: seq<seq<byte>>): (ls: seq<seq<byte>>)
    ensures |ls| == |zs| && forall i :: 0 <= i < |ls| ==> ls[i] == ToLE(|zs[i]|, 4)
  {
    seq(|zs|, i requires 0 <= i < |zs| => ToLE(|zs[i]|, 4))
  }

  /** The pieces of a record in the order they are written: hash, item count, item sizes, items. */
  function Pieces(r: Record): seq<seq<byte>> {
    [r.hash, [|r.zdatas| % 256]] + Lengths(r.zdatas) + r.zdatas
  }

  function Encode(r: Record): seq<byte> { Concat(Pieces(r)) }

  // ---- writing and losing writes ----

  datatype Op = Write(at: nat, bytes: seq<byte>) | Sync

  function Zeros(n: nat): (z: seq<byte>)
    ensures |z| == n && forall i :: 0 <= i < n ==> z[i] == 0
  {
    seq(n, _ => 0)
  }

  /** A write; one beyond the end of the file fills the gap with zeros. */
  function Put(f: seq<byte>, at: nat, bs: seq<byte>): (g: seq<byte>)
    ensures |g| >= |f| && |g| >= (if bs == [] then 0 else at + |bs|)
    ensures at + |bs| <= |f| ==> |g| == |f|
  {
    if bs == [] then f
    else if at + |bs| <= |f| then f[..at] + bs + f[at + |bs|..]
    else if at <= |f| then f[..at] + bs
    else f + Zeros(at - |f|) + bs
  }

  lemma PutSpec(f: seq<byte>, at: nat, bs: seq<byte>)
    ensures var g := Put(f, at, bs);
      && (bs == [] ==> g == f)
      && (bs != [] ==> |g| == (if at + |bs| <= |f| then |f| else at + |bs|))
      && (forall i :: 0 <= i < |f| && !(at <= i < at + |bs|) ==> i < |g| && g[i] == f[i])
      && (forall i :: at <= i < at + |bs| ==> i < |g| && g[i] == bs[i - at])
  {
  }

  function Run(f: seq<byte>, ops: seq<Op>): seq<byte> {
    if ops == [] then f
    else
      var g := Run(f, ops[..|ops| - 1]);
      match ops[|ops| - 1]
      case Write(at, bs) => Put(g, at, bs)
      case Sync => g
  }

  /** What is certainly on the disk, and the writes since the last sync. */
  datatype Disk = Disk(synced: seq<byte>, pending: seq<Op>)

  function Step(d: Disk, op: Op): Disk {
    if op.Sync? then Disk(Run(d.synced, d.pending), []) else Disk(d.synced, d.pending + [op])
  }

  function Exec(d: Disk, ops: seq<Op>): Disk {
    if ops == [] then d else Step(Exec(d, ops[..|ops| - 1]), ops[|ops| - 1])
  }

  predicate Covers(op: Op, i: nat) { op.Write? && op.at <= i < op.at + |op.bytes| }

  /** What a crash may leave: a byte that no unsynced write touches keeps its synced value; all
      others, and everything after the synced end, may be anything, up to the largest file size. */
  ghost predicate Torn(d: Disk, img: seq<byte>) {
    && |d.synced| <= |img| < I64
    && forall i :: 0 <= i < |d.synced| && (forall op :: op in d.pending ==> !Covers(op, i)) ==> img[i] == d.synced[i]
  }

  /** Byte `i` is the synced one, zero behind the synced end, or that of a write since. */
  ghost predicate ByteKept(d: Disk, img: seq<byte>, i: nat)
    requires i < |img|
  {
    || img[i] == (if i < |d.synced| then d.synced[i] else 0)
    || exists op :: op in d.pending && Covers(op, i) && op.bytes[i - op.at] == img[i]
  }

  /** What a crash leaves when every byte of every unsynced write is kept or lost. */
  ghost predicate KeptOrLost(d: Disk, img: seq<byte>) {
    |d.synced| <= |img| < I64 && forall i :: 0 <= i < |img| ==> ByteKept(d, img, i)
  }

  /** That is less than `Torn` allows. */
  lemma KeptIsTorn(d: Disk, img: seq<byte>)
    requires KeptOrLost(d, img)
    ensures Torn(d, img)
  {
    forall i | 0 <= i < |d.synced| && (forall op :: op in d.pending ==> !Covers(op, i)) ensures img[i] == d.synced[i] {
      assert ByteKept(d, img, i);
    }
  }

  // ---- a well-formed pile ----

  /** Where record `i` starts when the encoded records are `log`. */
  function Offset(log: seq<seq<byte>>, i: nat): nat
    requires i <= |log|
  {
    if i == 0 then HEADER_SIZE else Offset(log, i - 1) + |log[i - 1]|
  }

  function SlotAt(i: nat): nat { META_SIZE + i * 8 }

  /** `f` has the bytes `bs` at `at`. */
  predicate Has(f: seq<byte>, at: nat, bs: seq<byte>) {
    at + |bs| <= |f| && f[at..at + |bs|] == bs
  }

  predicate SlotHeld(f: seq<byte>, slots: seq<seq<byte>>, i: nat)
    requires i < |slots|
  {
    |slots[i]| == 8 && Has(f, SlotAt(i), slots[i])
  }

  predicate RecordHeld(f: seq<byte>, log: seq<seq<byte>>, i: nat)
    requires i < |log|
  {
    Has(f, Offset(log, i), log[i])
  }

  /** Slots and record area hold `slots` and `log`; what follows may be anything. */
  ghost predicate Holds(f: seq<byte>, slots: seq<seq<byte>>, log: seq<seq<byte>>) {
    && |slots| == |log| <= CHUNK_UNIT
    && HEADER_SIZE <= |f| < I64
    && Offset(log, |log|) <= |f|
    && (forall i :: 0 <= i < |slots| ==> SlotHeld(f, slots, i))
    && (forall i :: 0 <= i < |log| ==> RecordHeld(f, log, i))
  }

  /** The parts of the meta data that change with each append: the head height and its two checks. */
  datatype Heads = Heads(head: seq<byte>, a: seq<byte>, b: seq<byte>)

  ghost predicate LaidOut(f: seq<byte>, w: Heads, info: seq<byte>, slots: seq<seq<byte>>, log: seq<seq<byte>>) {
    && |w.head| == 4 && |w.a| == 4 && |w.b| == 4 && |info| == 40
    && Has(f, 0, w.head) && Has(f, 4, w.a) && Has(f, 8, w.b) && Has(f, 12, info)
    && Holds(f, slots, log)
  }

  /** The offsets at which the records end, as numbers of `width` bytes. */
  function Ends(log: seq<seq<byte>>, width: nat): (s: seq<seq<byte>>)
    ensures |s| == |log|
  {
    if log == [] then [] else Ends(log[..|log| - 1], width) + [ToLE(Offset(log, |log|), width)]
  }

  function Slots(log: seq<seq<byte>>): seq<seq<byte>> { Ends(log, 8) }

  /** First height, last height and genesis hash. */
  function Info(begin: nat, gen: seq<byte>): seq<byte> {
    ToLE(begin, 4) + ToLE(begin + CHUNK_UNIT, 4) + gen
  }

  ghost predicate ValidInfo(begin: nat, gen: seq<byte>) {
    begin % CHUNK_UNIT == 0 && begin + CHUNK_UNIT < U32 && |gen| == 32
  }

  function HeadsAt(h: nat): Heads { Heads(ToLE(h, 4), ToLE(h, 4), ToLE(h, 4)) }

  /** A pile file that starts after height `begin` and holds exactly the encoded records `log`. */
  ghost predicate WellFormed(f: seq<byte>, begin: nat, gen: seq<byte>, log: seq<seq<byte>>) {
    && ValidInfo(begin, gen)
    && LaidOut(f, HeadsAt(begin + |log|), Info(begin, gen), Slots(log), log)
  }
}
