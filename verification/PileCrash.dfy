/** Crashes while a record is appended to a pile. */
module PileCrash {
  import opened Bytes
  import opened PileFormat

  // ---- reading ----

  datatype ReadResult = Bytes(bytes: seq<byte>) | ReadFailed

  /** One read into a buffer of `n` zero bytes: it fails at or after the end of the file, and a
      short read leaves the rest of the buffer zero. */
  function Read(f: seq<byte>, at: int, n: nat): (r: ReadResult)
    ensures r.Bytes? ==> |r.bytes| == n
  {
    if at < 0 then ReadFailed
    else if n == 0 then Bytes([])
    else if at >= |f| then ReadFailed
    else if at + n <= |f| then Bytes(f[at..at + n])
    else Bytes(f[at..] + Zeros(at + n - |f|))
  }

  function Int64(v: nat): int {
    if v < I64 then v else v - U64
  }

  // ---- loading and repairing ----

  datatype LoadCode = ReadError | InvalidChunkBeginHeight | InvalidChunkEndHeight | HeightCrashed | InvalidFileSize
  datatype LoadResult = Loaded(file: seq<byte>, head: nat, begin: nat, gen: seq<byte>) | Refused(code: LoadCode)

  datatype Repaired = Repaired(ops: seq<Op>, head: nat) | Broken

  /** The writes that repair the three head heights after a crash: the two checks win when they are equal,
      then a head one above the second check, then a head equal to the first check. */
  function Repair(head: nat, a: nat, b: nat): Repaired {
    if head == a && a == b then Repaired([], head)
    else if a == b then Repaired([Write(0, ToLE(a, 4)), Sync], a)
    else if head == (b + 1) % U32 then Repaired([Write(4, ToLE(head, 4)), Write(8, ToLE(head, 4)), Sync], head)
    else if head == a then Repaired([Write(8, ToLE(head, 4)), Sync], head)
    else Broken
  }

  datatype OffsetResult = Off(at: int) | NoOffset

  /** Where the first `from` records end: after the header, or where the slot of the last one says. */
  function EndOf(f: seq<byte>, from: nat): OffsetResult {
    if from == 0 then Off(HEADER_SIZE)
    else
      var r := Read(f, META_SIZE + (from - 1) * 8, 8);
      if r.ReadFailed? then NoOffset else Off(Int64(FromLE(r.bytes)))
  }

  function Word(bs: seq<byte>, at: nat): nat
    requires at + 4 <= |bs|
  {
    FromLE(bs[at..at + 4])
  }

  /** After the repair: the file must be long enough for the last record. */
  function Finish(f: seq<byte>, head: nat, begin: nat, gen: seq<byte>): LoadResult {
    var end := EndOf(f, (head - begin) % U32);
    if end.NoOffset? then Refused(ReadError)
    else if |f| < end.at then Refused(InvalidFileSize)
    else Loaded(f, head, begin, gen)
  }

  /** Loading, given the head heights, the first and last height and the genesis hash that were read. */
  function LoadWith(f: seq<byte>, head: nat, a: nat, b: nat, begin: nat, end: nat, gen: seq<byte>): LoadResult {
    if begin % CHUNK_UNIT != 0 then Refused(InvalidChunkBeginHeight)
    else if (begin + CHUNK_UNIT) % U32 != end then Refused(InvalidChunkEndHeight)
    else
      var fixed := Repair(head, a, b);
      if fixed.Broken? then Refused(HeightCrashed) else Finish(Run(f, fixed.ops), fixed.head, begin, gen)
  }

  function LoadPile(f: seq<byte>): LoadResult {
    var r := Read(f, 0, META_SIZE);
    if r.ReadFailed? then Refused(ReadError)
    else
      var meta := r.bytes;
      LoadWith(f, Word(meta, 0), Word(meta, 4), Word(meta, 8), Word(meta, 12), Word(meta, 16), meta[20..52])
  }

  // ---- appending ----

  /** Consecutive writes of `cs`, starting at `at`. */
  function DataWrites(at: nat, cs: seq<seq<byte>>): seq<Op> {
    if cs == [] then []
    else
      var front := cs[..|cs| - 1];
      DataWrites(at, front) + [Write(at + |Concat(front)|, cs[|cs| - 1])]
  }

  function SyncOp(sync: bool): seq<Op> { if sync then [Sync] else [] }

  /** The writes up to and including the one of the head height: `s` goes to the slot, `h` is the new head. */
  function BodyOps(off: nat, from: nat, cs: seq<seq<byte>>, s: seq<byte>, h: seq<byte>): seq<Op> {
    DataWrites(off, cs) + [Write(SlotAt(from), s)] + [Write(0, h)]
  }

  function CheckOps(h: seq<byte>, sync: bool): seq<Op> {
    SyncOp(sync) + [Write(4, h)] + SyncOp(sync) + [Write(8, h)] + SyncOp(sync)
  }

  /** All file operations of one append at `off`, in their order. */
  function AppendOps(off: nat, from: nat, head: nat, cs: seq<seq<byte>>, sync: bool): seq<Op> {
    BodyOps(off, from, cs, ToLE(off + |Concat(cs)|, 8), ToLE(head + 1, 4)) + CheckOps(ToLE(head + 1, 4), sync)
  }

  // ---- sizes and offsets ----

  lemma {:induction false} ConcatSplit(xs: seq<seq<byte>>, ys: seq<seq<byte>>)
    ensures Concat(xs + ys) == Concat(xs) + Concat(ys)
    decreases ys
  {
    if ys == [] {
      assert xs + ys == xs;
    } else {
      var front := ys[..|ys| - 1];
      assert (xs + ys)[..|xs + ys| - 1] == xs + front;
      ConcatSplit(xs, front);
    }
  }

  lemma {:induction false} OffsetPrefix(log: seq<seq<byte>>, x: seq<byte>, i: nat)
    requires i <= |log|
    ensures Offset(log + [x], i) == Offset(log, i)
  {
    if i > 0 {
      OffsetPrefix(log, x, i - 1);
      assert (log + [x])[i - 1] == log[i - 1];
    }
  }

  lemma {:induction false} OffsetGrows(log: seq<seq<byte>>, i: nat, j: nat)
    requires i <= j <= |log|
    ensures HEADER_SIZE <= Offset(log, i) <= Offset(log, j)
    decreases j
  {
    if j > i {
      OffsetGrows(log, i, j - 1);
    } else if j > 0 {
      OffsetGrows(log, i - 1, i - 1);
    }
  }

  // ---- writes ----

  lemma PutPut(f: seq<byte>, at: nat, x: seq<byte>, y: seq<byte>)
    requires at <= |f|
    ensures Put(Put(f, at, x), at + |x|, y) == Put(f, at, x + y)
  {
    var g := Put(Put(f, at, x), at + |x|, y);
    var h := Put(f, at, x + y);
    PutSpec(f, at, x);
    PutSpec(Put(f, at, x), at + |x|, y);
    PutSpec(f, at, x + y);
    if y == [] {
      assert x + y == x;
    } else {
      assert |g| == |h|;
      forall i | 0 <= i < |g| ensures g[i] == h[i] {
        if at <= i < at + |x| + |y| {
          assert h[i] == (x + y)[i - at];
        }
      }
    }
  }

  lemma {:induction false} RunDataWrites(f: seq<byte>, at: nat, cs: seq<seq<byte>>)
    requires at <= |f|
    ensures Run(f, DataWrites(at, cs)) == Put(f, at, Concat(cs))
  {
    if cs != [] {
      var front := cs[..|cs| - 1];
      RunDataWrites(f, at, front);
      var ops := DataWrites(at, cs);
      assert ops[..|ops| - 1] == DataWrites(at, front);
      PutPut(f, at, Concat(front), cs[|cs| - 1]);
    }
  }

  lemma {:induction false} DataWritesCover(at: nat, cs: seq<seq<byte>>, op: Op, i: nat)
    requires op in DataWrites(at, cs) && Covers(op, i)
    ensures at <= i
  {
    var front := cs[..|cs| - 1];
    if op in DataWrites(at, front) {
      DataWritesCover(at, front, op, i);
    }
  }

  lemma {:induction false} DataWritesAreWrites(at: nat, cs: seq<seq<byte>>, op: Op)
    requires op in DataWrites(at, cs)
    ensures op.Write?
  {
    var front := cs[..|cs| - 1];
    if op in DataWrites(at, front) {
      DataWritesAreWrites(at, front, op);
    }
  }

  lemma {:induction false} RunSplit(f: seq<byte>, xs: seq<Op>, ys: seq<Op>)
    ensures Run(f, xs + ys) == Run(Run(f, xs), ys)
    decreases ys
  {
    if ys == [] {
      assert xs + ys == xs;
    } else {
      var front := ys[..|ys| - 1];
      assert (xs + ys)[..|xs + ys| - 1] == xs + front;
      RunSplit(f, xs, front);
    }
  }

  lemma {:induction false} ExecSplit(d: Disk, xs: seq<Op>, ys: seq<Op>)
    ensures Exec(d, xs + ys) == Exec(Exec(d, xs), ys)
    decreases ys
  {
    if ys == [] {
      assert xs + ys == xs;
    } else {
      var front := ys[..|ys| - 1];
      assert (xs + ys)[..|xs + ys| - 1] == xs + front;
      ExecSplit(d, xs, front);
    }
  }

  /** Writes alone stay pending. */
  lemma {:induction false} ExecWrites(d: Disk, ops: seq<Op>)
    requires forall op :: op in ops ==> op.Write?
    ensures Exec(d, ops) == Disk(d.synced, d.pending + ops)
  {
    if ops == [] {
      assert d.pending + ops == d.pending;
    } else {
      var front := ops[..|ops| - 1];
      assert forall op :: op in front ==> op in ops;
      ExecWrites(d, front);
      assert ops[|ops| - 1] in ops;
      assert d.pending + ops == d.pending + front + [ops[|ops| - 1]];
    }
  }

  // ---- what stays in place ----

  /** `g` has the bytes of `f` from `lo` to `hi`. */
  ghost predicate SameRange(f: seq<byte>, g: seq<byte>, lo: nat, hi: nat) {
    hi <= |f| && hi <= |g| && forall i :: lo <= i < hi ==> f[i] == g[i]
  }

  lemma HasFrame(f: seq<byte>, g: seq<byte>, lo: nat, hi: nat, at: nat, bs: seq<byte>)
    requires SameRange(f, g, lo, hi) && lo <= at && at + |bs| <= hi && Has(f, at, bs)
    ensures Has(g, at, bs)
  {
    assert f[at..at + |bs|] == g[at..at + |bs|];
  }

  lemma HoldsFrame(f: seq<byte>, g: seq<byte>, slots: seq<seq<byte>>, log: seq<seq<byte>>)
    requires Holds(f, slots, log) && HEADER_SIZE <= |g| < I64
    requires SameRange(f, g, META_SIZE, SlotAt(|log|))
    requires SameRange(f, g, HEADER_SIZE, Offset(log, |log|))
    ensures Holds(g, slots, log)
  {
    forall i | 0 <= i < |slots| ensures SlotHeld(g, slots, i) {
      assert SlotHeld(f, slots, i);
      HasFrame(f, g, META_SIZE, SlotAt(|log|), SlotAt(i), slots[i]);
    }
    forall i | 0 <= i < |log| ensures RecordHeld(g, log, i) {
      assert RecordHeld(f, log, i);
      OffsetGrows(log, 0, i);
      OffsetGrows(log, i + 1, |log|);
      HasFrame(f, g, HEADER_SIZE, Offset(log, |log|), Offset(log, i), log[i]);
    }
  }

  /** Nothing depends on the bytes from the first free slot to the end of the header, nor on those
      after the last record. */
  lemma LaidOutFrame(f: seq<byte>, g: seq<byte>, w: Heads, info: seq<byte>, slots: seq<seq<byte>>, log: seq<seq<byte>>)
    requires LaidOut(f, w, info, slots, log) && HEADER_SIZE <= |g| < I64
    requires SameRange(f, g, 4, SlotAt(|log|)) && SameRange(f, g, HEADER_SIZE, Offset(log, |log|))
    ensures LaidOut(g, w.(head := g[0..4]), info, slots, log)
  {
    HoldsFrame(f, g, slots, log);
    HasFrame(f, g, 4, SlotAt(|log|), 4, w.a);
    HasFrame(f, g, 4, SlotAt(|log|), 8, w.b);
    HasFrame(f, g, 4, SlotAt(|log|), 12, info);
  }

  lemma HoldsPrefix(f: seq<byte>, slots: seq<seq<byte>>, log: seq<seq<byte>>, s: seq<byte>, x: seq<byte>)
    requires |slots| == |log| && Holds(f, slots + [s], log + [x])
    ensures Holds(f, slots, log)
  {
    OffsetPrefix(log, x, |log|);
    assert RecordHeld(f, log + [x], |log|);
    forall i | 0 <= i < |slots| ensures SlotHeld(f, slots, i) {
      assert SlotHeld(f, slots + [s], i);
    }
    forall i | 0 <= i < |log| ensures RecordHeld(f, log, i) {
      assert RecordHeld(f, log + [x], i);
      OffsetPrefix(log, x, i);
    }
  }

  /** A record with its slot in place extends the log. */
  lemma HoldsSnoc(f: seq<byte>, slots: seq<seq<byte>>, log: seq<seq<byte>>, s: seq<byte>, x: seq<byte>)
    requires Holds(f, slots, log) && |log| < CHUNK_UNIT && |s| == 8
    requires Has(f, SlotAt(|log|), s) && Has(f, Offset(log, |log|), x)
    ensures Holds(f, slots + [s], log + [x])
  {
    OffsetPrefix(log, x, |log|);
    assert Offset(log + [x], |log| + 1) == Offset(log, |log|) + |x|;
    forall i | 0 <= i < |log| + 1 ensures SlotHeld(f, slots + [s], i) {
      assert i < |log| ==> SlotHeld(f, slots, i);
    }
    forall i | 0 <= i < |log| + 1 ensures RecordHeld(f, log + [x], i) {
      if i < |log| {
        assert RecordHeld(f, log, i);
        OffsetPrefix(log, x, i);
      }
    }
  }

  // ---- one append, write by write ----

  lemma PutSame(f: seq<byte>, at: nat, bs: seq<byte>, lo: nat, hi: nat)
    requires hi <= |f| && (at + |bs| <= lo || hi <= at)
    ensures SameRange(f, Put(f, at, bs), lo, hi)
  {
    PutSpec(f, at, bs);
  }

  lemma PutHas(f: seq<byte>, at: nat, bs: seq<byte>)
    requires at <= |f|
    ensures Has(Put(f, at, bs), at, bs)
  {
    PutSpec(f, at, bs);
    if bs != [] {
      assert Put(f, at, bs)[at..at + |bs|] == bs;
    }
  }

  /** Nothing changes when bytes are added after the last record. */
  lemma AfterLast(f: seq<byte>, g: seq<byte>, w: Heads, info: seq<byte>, slots: seq<seq<byte>>, log: seq<seq<byte>>)
    requires LaidOut(f, w, info, slots, log) && |f| <= |g| < I64
    requires SameRange(f, g, 0, Offset(log, |log|))
    ensures LaidOut(g, w, info, slots, log)
  {
    OffsetGrows(log, 0, |log|);
    LaidOutFrame(f, g, w, info, slots, log);
    HasFrame(f, g, 0, 4, 0, w.head);
  }

  lemma PutRecord(f: seq<byte>, w: Heads, info: seq<byte>, slots: seq<seq<byte>>, log: seq<seq<byte>>, x: seq<byte>)
    requires LaidOut(f, w, info, slots, log) && Offset(log, |log|) + |x| < I64
    ensures var g := Put(f, Offset(log, |log|), x);
      LaidOut(g, w, info, slots, log) && Has(g, Offset(log, |log|), x)
  {
    var off := Offset(log, |log|);
    PutHas(f, off, x);
    PutSame(f, off, x, 0, off);
    AfterLast(f, Put(f, off, x), w, info, slots, log);
  }

  lemma PutSlot(f: seq<byte>, w: Heads, info: seq<byte>, slots: seq<seq<byte>>, log: seq<seq<byte>>, s: seq<byte>,
                x: seq<byte>)
    requires LaidOut(f, w, info, slots, log) && |log| < CHUNK_UNIT && |s| == 8 && Has(f, Offset(log, |log|), x)
    ensures LaidOut(Put(f, SlotAt(|log|), s), w, info, slots + [s], log + [x])
  {
    var off, at := Offset(log, |log|), SlotAt(|log|);
    OffsetGrows(log, 0, |log|);
    var g := Put(f, at, s);
    PutHas(f, at, s);
    PutSame(f, at, s, 0, at);
    PutSame(f, at, s, HEADER_SIZE, off + |x|);
    LaidOutFrame(f, g, w, info, slots, log);
    HasFrame(f, g, 0, at, 0, w.head);
    HasFrame(f, g, HEADER_SIZE, off + |x|, off, x);
    HoldsSnoc(g, slots, log, s, x);
  }

  /** Overwriting one of the three head heights. */
  lemma PutHead(f: seq<byte>, w: Heads, info: seq<byte>, slots: seq<seq<byte>>, log: seq<seq<byte>>, h: seq<byte>)
    requires LaidOut(f, w, info, slots, log) && |h| == 4
    ensures LaidOut(Put(f, 0, h), w.(head := h), info, slots, log)
    ensures LaidOut(Put(f, 4, h), w.(a := h), info, slots, log)
    ensures LaidOut(Put(f, 8, h), w.(b := h), info, slots, log)
  {
    PutWord(f, w, info, slots, log, 0, h);
    PutWord(f, w, info, slots, log, 4, h);
    PutWord(f, w, info, slots, log, 8, h);
  }

  lemma PutWord(f: seq<byte>, w: Heads, info: seq<byte>, slots: seq<seq<byte>>, log: seq<seq<byte>>, at: nat,
                h: seq<byte>)
    requires LaidOut(f, w, info, slots, log) && |h| == 4 && (at == 0 || at == 4 || at == 8)
    ensures var g := Put(f, at, h);
      && Has(g, at, h) && Has(g, 12, info) && Holds(g, slots, log)
      && (at != 0 ==> Has(g, 0, w.head)) && (at != 4 ==> Has(g, 4, w.a)) && (at != 8 ==> Has(g, 8, w.b))
  {
    var g := Put(f, at, h);
    PutHas(f, at, h);
    PutSame(f, at, h, 12, |f|);
    PutSame(f, at, h, 0, at);
    PutSame(f, at, h, at + 4, 12);
    HasFrame(f, g, 12, |f|, 12, info);
    OffsetGrows(log, 0, |log|);
    HoldsFrame(f, g, slots, log);
    if at != 0 { HasFrame(f, g, 0, at, 0, w.head); }
    if at == 0 { HasFrame(f, g, 4, 12, 4, w.a); }
    if at == 8 { HasFrame(f, g, 0, 8, 4, w.a); }
    if at != 8 { HasFrame(f, g, at + 4, 12, 8, w.b); }
  }

  lemma EndsSnoc(log: seq<seq<byte>>, x: seq<byte>, width: nat)
    ensures Ends(log + [x], width) == Ends(log, width) + [ToLE(Offset(log, |log|) + |x|, width)]
  {
    OffsetPrefix(log, x, |log|);
    assert (log + [x])[..|log + [x]| - 1] == log;
  }

  lemma {:induction false} EndsAt(log: seq<seq<byte>>, width: nat, i: nat)
    requires i < |log|
    ensures Ends(log, width)[i] == ToLE(Offset(log, i + 1), width)
  {
    var front, last := log[..|log| - 1], log[|log| - 1];
    assert front + [last] == log;
    if i < |front| {
      EndsAt(front, width, i);
      OffsetPrefix(front, last, i + 1);
    }
  }

  lemma RunOne(f: seq<byte>, ops: seq<Op>, op: Op)
    requires op.Write?
    ensures Run(f, ops + [op]) == Put(Run(f, ops), op.at, op.bytes)
  {
    assert (ops + [op])[..|ops + [op]| - 1] == ops;
  }

  /** What the first group of writes makes of the file. */
  lemma BodyRuns(f: seq<byte>, w: Heads, info: seq<byte>, slots: seq<seq<byte>>, log: seq<seq<byte>>,
                 cs: seq<seq<byte>>, s: seq<byte>, h: seq<byte>)
    requires LaidOut(f, w, info, slots, log) && |log| < CHUNK_UNIT && |s| == 8 && |h| == 4
    requires Offset(log, |log|) + |Concat(cs)| < I64
    ensures LaidOut(Run(f, BodyOps(Offset(log, |log|), |log|, cs, s, h)),
                    w.(head := h), info, slots + [s], log + [Concat(cs)])
  {
    var off, x := Offset(log, |log|), Concat(cs);
    var ops := DataWrites(off, cs);
    RunDataWrites(f, off, cs);
    PutRecord(f, w, info, slots, log, x);
    PutSlot(Put(f, off, x), w, info, slots, log, s, x);
    PutHead(Put(Put(f, off, x), SlotAt(|log|), s), w, info, slots + [s], log + [x], h);
    RunOne(f, ops, Write(SlotAt(|log|), s));
    RunOne(f, ops + [Write(SlotAt(|log|), s)], Write(0, h));
  }

  // ---- the repair on loading ----

  /** The head heights that the repair can bring to `h`. */
  predicate Repairable(head: nat, a: nat, b: nat, h: nat) {
    (a == b == h) || (b + 1 == h && head == h && a != b) || (head == h && a == h && b != h)
  }

  /** The head heights that are brought to `h`, among all 32-bit numbers: the height above the second check wraps. */
  predicate Repairs(head: nat, a: nat, b: nat, h: nat) {
    a == b == h || (a != b && head == h && (h == (b + 1) % U32 || h == a))
  }

  /** The repair succeeds exactly then, and refuses all other head heights. */
  lemma RepairIff(head: nat, a: nat, b: nat, h: nat)
    ensures Repair(head, a, b).Repaired? && Repair(head, a, b).head == h <==> Repairs(head, a, b, h)
    ensures Repair(head, a, b) == Broken <==> forall g: nat :: !Repairs(head, a, b, g)
  {
    assert Repairs(head, a, b, if a == b then a else head) <==> Repair(head, a, b).Repaired?;
  }

  /** The outcome of the repair in each accepted case. */
  lemma RepairCases(head: nat, a: nat, b: nat, h: nat)
    requires h < U32 && b < U32 && Repairable(head, a, b, h)
    ensures var fixed := Repair(head, a, b);
      && fixed.Repaired? && fixed.head == h
      && (|| (fixed.ops == [] && head == a == b == h)
          || (fixed.ops == [Write(0, ToLE(h, 4)), Sync] && a == b == h)
          || (fixed.ops == [Write(4, ToLE(h, 4)), Write(8, ToLE(h, 4)), Sync]
              && head == h && a != b && h == (b + 1) % U32)
          || (fixed.ops == [Write(8, ToLE(h, 4)), Sync] && head == a == h && h != (b + 1) % U32))
  {
  }

  lemma RunTwo(f: seq<byte>, op: Op)
    requires op.Write?
    ensures Run(f, [op, Sync]) == Put(f, op.at, op.bytes)
  {
    assert [op, Sync][..1] == [op];
    RunSingle(f, op);
  }

  lemma RunThree(f: seq<byte>, op: Op, op': Op)
    requires op.Write? && op'.Write?
    ensures Run(f, [op, op', Sync]) == Put(Put(f, op.at, op.bytes), op'.at, op'.bytes)
  {
    assert [op, op', Sync][..2] == [op, op'];
    assert [op, op'] == [op] + [op'];
    RunOne(f, [op], op');
    RunSingle(f, op);
  }

  /** Writing the bytes `v` where the repair does makes all three head heights `v`. */
  lemma RepairLays(f: seq<byte>, w: Heads, info: seq<byte>, slots: seq<seq<byte>>, log: seq<seq<byte>>, v: seq<byte>)
    requires LaidOut(f, w, info, slots, log) && |v| == 4
    ensures w.a == w.b == v ==> LaidOut(Run(f, [Write(0, v), Sync]), Heads(v, v, v), info, slots, log)
    ensures w.head == v ==> LaidOut(Run(f, [Write(4, v), Write(8, v), Sync]), Heads(v, v, v), info, slots, log)
    ensures w.head == w.a == v ==> LaidOut(Run(f, [Write(8, v), Sync]), Heads(v, v, v), info, slots, log)
  {
    PutHead(f, w, info, slots, log, v);
    PutHead(Put(f, 4, v), w.(a := v), info, slots, log, v);
    RunTwo(f, Write(0, v));
    RunTwo(f, Write(8, v));
    RunThree(f, Write(4, v), Write(8, v));
  }

  lemma RepairGives(f: seq<byte>, w: Heads, info: seq<byte>, slots: seq<seq<byte>>, log: seq<seq<byte>>, h: nat)
      returns (ops: seq<Op>)
    requires LaidOut(f, w, info, slots, log) && h < U32
    requires Repairable(FromLE(w.head), FromLE(w.a), FromLE(w.b), h)
    ensures Repair(FromLE(w.head), FromLE(w.a), FromLE(w.b)) == Repaired(ops, h)
    ensures LaidOut(Run(f, ops), HeadsAt(h), info, slots, log)
  {
    RoundTripBytes(w.head);
    RoundTripBytes(w.a);
    RoundTripBytes(w.b);
    FromLEBound(w.b);
    Widths();
    RepairCases(FromLE(w.head), FromLE(w.a), FromLE(w.b), h);
    RepairLays(f, w, info, slots, log, ToLE(h, 4));
    ops := Repair(FromLE(w.head), FromLE(w.a), FromLE(w.b)).ops;
  }

  lemma InfoParts(begin: nat, gen: seq<byte>)
    requires ValidInfo(begin, gen)
    ensures var info := Info(begin, gen);
      |info| == 40 && FromLE(info[0..4]) == begin && FromLE(info[4..8]) == begin + CHUNK_UNIT && info[8..40] == gen
  {
    var info := Info(begin, gen);
    assert info[0..4] == ToLE(begin, 4) && info[4..8] == ToLE(begin + CHUNK_UNIT, 4);
    RoundTrip32(begin);
    RoundTrip32(begin + CHUNK_UNIT);
  }

  lemma MetaOf(f: seq<byte>, w: Heads, info: seq<byte>, slots: seq<seq<byte>>, log: seq<seq<byte>>)
    requires LaidOut(f, w, info, slots, log)
    ensures LoadPile(f) == LoadWith(f, FromLE(w.head), FromLE(w.a), FromLE(w.b),
                                    FromLE(info[0..4]), FromLE(info[4..8]), info[8..40])
  {
    var meta := f[0..META_SIZE];
    assert meta[0..4] == f[0..4] && meta[4..8] == f[4..8] && meta[8..12] == f[8..12];
    SubSlice(f, 12, 12 + |info|, 0, 4);
    SubSlice(f, 12, 12 + |info|, 4, 8);
    SubSlice(f, 12, 12 + |info|, 8, 40);
    SubSlice(f, 0, META_SIZE, 12, 16);
    SubSlice(f, 0, META_SIZE, 16, 20);
    SubSlice(f, 0, META_SIZE, 20, 52);
  }

  lemma SubSlice(f: seq<byte>, lo: nat, hi: nat, a: nat, b: nat)
    requires lo <= hi <= |f| && a <= b <= hi - lo
    ensures f[lo..hi][a..b] == f[lo + a..lo + b]
  {
    var g := f[lo..hi];
    assert forall i :: a <= i < b ==> g[i] == f[lo + i];
    assert g[a..b] == f[lo + a..lo + b];
  }

  lemma HasReads(f: seq<byte>, at: nat, bs: seq<byte>)
    requires Has(f, at, bs)
    ensures Read(f, at, |bs|) == Bytes(bs)
  {
  }

  lemma EndFrom(f: seq<byte>, i: nat, bs: seq<byte>)
    requires Read(f, SlotAt(i), 8) == Bytes(bs) && FromLE(bs) < I64
    ensures EndOf(f, i + 1) == Off(FromLE(bs))
  {
  }

  lemma HeldSlot(f: seq<byte>, slots: seq<seq<byte>>, log: seq<seq<byte>>, i: nat)
    requires Holds(f, slots, log) && i < |slots|
    ensures |slots[i]| == 8 && Has(f, SlotAt(i), slots[i])
  {
    assert SlotHeld(f, slots, i);
  }

  /** Reading a slot gives the end of its record. */
  lemma SlotReads(f: seq<byte>, log: seq<seq<byte>>, i: nat)
    requires Holds(f, Slots(log), log) && i < |log|
    ensures EndOf(f, i + 1) == Off(Offset(log, i + 1)) && Offset(log, i + 1) <= |f|
  {
    var bs := ToLE(Offset(log, i + 1), 8);
    EndsAt(log, 8, i);
    HeldSlot(f, Slots(log), log, i);
    HasReads(f, SlotAt(i), bs);
    OffsetGrows(log, i + 1, |log|);
    RoundTrip64(Offset(log, i + 1));
    EndFrom(f, i, bs);
  }

  lemma EndIs(f: seq<byte>, log: seq<seq<byte>>, i: nat)
    requires Holds(f, Slots(log), log) && i <= |log|
    ensures EndOf(f, i) == Off(Offset(log, i)) && Offset(log, i) <= |f|
  {
    if i > 0 {
      SlotReads(f, log, i - 1);
    }
  }

  /** The file loads, and after the repair it is a well-formed pile with exactly `log`. */
  ghost predicate LoadsAs(f: seq<byte>, begin: nat, gen: seq<byte>, log: seq<seq<byte>>) {
    var l := LoadPile(f);
    l.Loaded? && l.head == begin + |log| && l.begin == begin && l.gen == gen && WellFormed(l.file, begin, gen, log)
  }

  lemma Finishes(f: seq<byte>, begin: nat, gen: seq<byte>, log: seq<seq<byte>>)
    requires Holds(f, Slots(log), log) && begin + |log| < U32
    ensures Finish(f, begin + |log|, begin, gen) == Loaded(f, begin + |log|, begin, gen)
  {
    EndIs(f, log, |log|);
  }

  /** A file whose head heights the repair accepts for `log`. */
  ghost predicate Loadable(f: seq<byte>, w: Heads, info: seq<byte>, begin: nat, log: seq<seq<byte>>) {
    && begin + |log| < U32
    && LaidOut(f, w, info, Slots(log), log)
    && Repairable(FromLE(w.head), FromLE(w.a), FromLE(w.b), begin + |log|)
  }

  ghost predicate CanLoad(f: seq<byte>, info: seq<byte>, begin: nat, log: seq<seq<byte>>) {
    exists w :: Loadable(f, w, info, begin, log)
  }

  lemma LoadSteps(f: seq<byte>, head: nat, a: nat, b: nat, begin: nat, gen: seq<byte>, ops: seq<Op>, g: seq<byte>,
                  h: nat)
    requires begin % CHUNK_UNIT == 0 && begin + CHUNK_UNIT < U32
    requires Repair(head, a, b) == Repaired(ops, h) && g == Run(f, ops)
    requires Finish(g, h, begin, gen) == Loaded(g, h, begin, gen)
    ensures LoadWith(f, head, a, b, begin, begin + CHUNK_UNIT, gen) == Loaded(g, h, begin, gen)
  {
  }

  lemma LoadReads(f: seq<byte>, w: Heads, info: seq<byte>, slots: seq<seq<byte>>, begin: nat, gen: seq<byte>,
                  log: seq<seq<byte>>)
    requires ValidInfo(begin, gen) && info == Info(begin, gen) && LaidOut(f, w, info, slots, log)
    ensures LoadPile(f) == LoadWith(f, FromLE(w.head), FromLE(w.a), FromLE(w.b), begin, begin + CHUNK_UNIT, gen)
  {
    MetaOf(f, w, info, slots, log);
    InfoParts(begin, gen);
  }

  lemma LoadFinishes(f: seq<byte>, head: nat, a: nat, b: nat, begin: nat, gen: seq<byte>, log: seq<seq<byte>>,
                     ops: seq<Op>)
    requires begin % CHUNK_UNIT == 0 && begin + CHUNK_UNIT < U32
    requires Repair(head, a, b) == Repaired(ops, begin + |log|) && Holds(Run(f, ops), Slots(log), log)
    ensures LoadWith(f, head, a, b, begin, begin + CHUNK_UNIT, gen) == Loaded(Run(f, ops), begin + |log|, begin, gen)
  {
    Finishes(Run(f, ops), begin, gen, log);
    LoadSteps(f, head, a, b, begin, gen, ops, Run(f, ops), begin + |log|);
  }

  lemma LoadsFrom(f: seq<byte>, w: Heads, info: seq<byte>, slots: seq<seq<byte>>, begin: nat, gen: seq<byte>,
                  log: seq<seq<byte>>, ops: seq<Op>)
    requires ValidInfo(begin, gen) && info == Info(begin, gen) && slots == Slots(log)
    requires LaidOut(f, w, info, slots, log) && Holds(Run(f, ops), slots, log)
    requires Repair(FromLE(w.head), FromLE(w.a), FromLE(w.b)) == Repaired(ops, begin + |log|)
    ensures LoadPile(f) == Loaded(Run(f, ops), begin + |log|, begin, gen)
  {
    LoadFinishes(f, FromLE(w.head), FromLE(w.a), FromLE(w.b), begin, gen, log, ops);
    LoadReads(f, w, info, slots, begin, gen, log);
  }

  lemma LoadsWith(f: seq<byte>, w: Heads, info: seq<byte>, slots: seq<seq<byte>>, begin: nat, gen: seq<byte>,
                  log: seq<seq<byte>>, h: nat) returns (g: seq<byte>)
    requires ValidInfo(begin, gen) && info == Info(begin, gen) && slots == Slots(log) && h == begin + |log| < U32
    requires LaidOut(f, w, info, slots, log) && Repairable(FromLE(w.head), FromLE(w.a), FromLE(w.b), h)
    ensures LoadPile(f) == Loaded(g, h, begin, gen) && LaidOut(g, HeadsAt(h), info, slots, log)
  {
    var ops := RepairGives(f, w, info, slots, log, h);
    g := Run(f, ops);
    LoadsFrom(f, w, info, slots, begin, gen, log, ops);
  }

  lemma LoadedAs(f: seq<byte>, l: LoadResult, g: seq<byte>, begin: nat, gen: seq<byte>, log: seq<seq<byte>>)
    requires l == LoadPile(f) && l == Loaded(g, begin + |log|, begin, gen)
    requires WellFormed(g, begin, gen, log)
    ensures LoadsAs(f, begin, gen, log)
  {
  }

  /** Loading succeeds on such a file, and makes its head heights equal. */
  lemma Loads(f: seq<byte>, begin: nat, gen: seq<byte>, log: seq<seq<byte>>)
    requires ValidInfo(begin, gen) && CanLoad(f, Info(begin, gen), begin, log)
    ensures LoadsAs(f, begin, gen, log)
  {
    var w :| Loadable(f, w, Info(begin, gen), begin, log);
    LoadsBy(f, w, Info(begin, gen), Slots(log), begin, gen, log);
  }

  lemma LoadsBy(f: seq<byte>, w: Heads, info: seq<byte>, slots: seq<seq<byte>>, begin: nat, gen: seq<byte>,
                log: seq<seq<byte>>)
    requires ValidInfo(begin, gen) && info == Info(begin, gen) && slots == Slots(log)
    requires Loadable(f, w, info, begin, log)
    ensures LoadsAs(f, begin, gen, log)
  {
    var g := LoadsWith(f, w, info, slots, begin, gen, log, begin + |log|);
    LoadedAs(f, LoadPile(f), g, begin, gen, log);
  }

  // ---- every crash during one append ----

  /** A range that no unsynced write touches survives. */
  lemma TornSame(d: Disk, img: seq<byte>, lo: nat, hi: nat)
    requires Torn(d, img) && hi <= |d.synced|
    requires forall i, op :: lo <= i < hi && op in d.pending ==> !Covers(op, i)
    ensures SameRange(d.synced, img, lo, hi)
  {
  }

  lemma BodyAreWrites(off: nat, from: nat, cs: seq<seq<byte>>, s: seq<byte>, h: seq<byte>)
    ensures forall op :: op in BodyOps(off, from, cs, s, h) ==> op.Write?
  {
    forall op | op in DataWrites(off, cs) ensures op.Write? {
      DataWritesAreWrites(off, cs, op);
    }
  }

  lemma BodyCovers(off: nat, from: nat, cs: seq<seq<byte>>, s: seq<byte>, h: seq<byte>, op: Op, i: nat)
    requires op in BodyOps(off, from, cs, s, h) && |s| == 8 && |h| == 4 && Covers(op, i)
    ensures i < 4 || SlotAt(from) <= i < SlotAt(from) + 8 || off <= i
  {
    if op in DataWrites(off, cs) {
      DataWritesCover(off, cs, op, i);
    }
  }

  /** What the first group of writes leaves alone. */
  lemma BodySpares(f: seq<byte>, off: nat, from: nat, cs: seq<seq<byte>>, s: seq<byte>, h: seq<byte>, ops: seq<Op>,
                   img: seq<byte>)
    requires ops <= BodyOps(off, from, cs, s, h) && |s| == 8 && |h| == 4
    requires Torn(Exec(Disk(f, []), ops), img)
    requires HEADER_SIZE <= off <= |f| && from < CHUNK_UNIT
    ensures SameRange(f, img, 4, SlotAt(from)) && SameRange(f, img, HEADER_SIZE, off)
  {
    assert forall op :: op in ops ==> op in BodyOps(off, from, cs, s, h);
    BodyAreWrites(off, from, cs, s, h);
    ExecWrites(Disk(f, []), ops);
    assert [] + ops == ops;
    forall i, op | 4 <= i < SlotAt(from) && op in ops ensures !Covers(op, i) {
      if Covers(op, i) { BodyCovers(off, from, cs, s, h, op, i); }
    }
    forall i, op | HEADER_SIZE <= i < off && op in ops ensures !Covers(op, i) {
      if Covers(op, i) { BodyCovers(off, from, cs, s, h, op, i); }
    }
    TornSame(Disk(f, ops), img, 4, SlotAt(from));
    TornSame(Disk(f, ops), img, HEADER_SIZE, off);
  }

  /** Before the first sync the old log survives. */
  lemma TornInBody(f: seq<byte>, info: seq<byte>, begin: nat, log: seq<seq<byte>>, cs: seq<seq<byte>>,
                   s: seq<byte>, h: seq<byte>, ops: seq<Op>, img: seq<byte>)
    requires LaidOut(f, HeadsAt(begin + |log|), info, Slots(log), log) && begin + CHUNK_UNIT < U32
    requires |log| < CHUNK_UNIT && |s| == 8 && |h| == 4
    requires ops <= BodyOps(Offset(log, |log|), |log|, cs, s, h)
    requires Torn(Exec(Disk(f, []), ops), img) && |f| <= |img|
    ensures CanLoad(img, info, begin, log)
  {
    OffsetGrows(log, 0, |log|);
    BodySpares(f, Offset(log, |log|), |log|, cs, s, h, ops, img);
    var w := HeadsAt(begin + |log|);
    LaidOutFrame(f, img, w, info, Slots(log), log);
    RoundTrip32(begin + |log|);
    assert Loadable(img, w.(head := img[0..4]), info, begin, log);
  }

  /** A crash that tears at most one of the two checks. */
  lemma TornCheck(f: seq<byte>, img: seq<byte>, w: Heads, info: seq<byte>, slots: seq<seq<byte>>,
                  log: seq<seq<byte>>, at: nat)
    requires LaidOut(f, w, info, slots, log) && |f| <= |img| < I64 && (at == 4 || at == 8)
    requires SameRange(f, img, 0, at) && SameRange(f, img, at + 4, |f|)
    ensures LaidOut(img, if at == 4 then w.(a := img[4..8]) else w.(b := img[8..12]), info, slots, log)
  {
    HasFrame(f, img, 0, at, 0, w.head);
    if at == 4 {
      HasFrame(f, img, 8, |f|, 8, w.b);
    } else {
      HasFrame(f, img, 0, 8, 4, w.a);
    }
    HasFrame(f, img, at + 4, |f|, 12, info);
    OffsetGrows(log, 0, |log|);
    HoldsFrame(f, img, slots, log);
  }

  lemma SlotsPrefix(f: seq<byte>, w: Heads, info: seq<byte>, log: seq<seq<byte>>, x: seq<byte>)
    requires LaidOut(f, w, info, Slots(log + [x]), log + [x])
    ensures LaidOut(f, w, info, Slots(log), log)
  {
    EndsSnoc(log, x, 8);
    HoldsPrefix(f, Slots(log), log, ToLE(Offset(log, |log|) + |x|, 8), x);
  }

  /** With the head written and synced and the first check possibly torn, the old or the new log is loaded. */
  lemma TornFirst(f: seq<byte>, img: seq<byte>, w: Heads, info: seq<byte>, begin: nat, log: seq<seq<byte>>,
                  x: seq<byte>)
    requires LaidOut(f, w, info, Slots(log + [x]), log + [x]) && begin + CHUNK_UNIT < U32 && |f| <= |img| < I64
    requires FromLE(w.head) == begin + |log| + 1 && FromLE(w.a) == FromLE(w.b) == begin + |log|
    requires SameRange(f, img, 0, 4) && SameRange(f, img, 8, |f|)
    ensures CanLoad(img, info, begin, log) || CanLoad(img, info, begin, log + [x])
    ensures SameRange(f, img, 0, |f|) ==> CanLoad(img, info, begin, log)
  {
    TornCheck(f, img, w, info, Slots(log + [x]), log + [x], 4);
    var v := w.(a := img[4..8]);
    if SameRange(f, img, 0, |f|) {
      HasFrame(f, img, 0, |f|, 4, w.a);
    }
    if FromLE(v.a) == begin + |log| {
      SlotsPrefix(img, v, info, log, x);
      assert Loadable(img, v, info, begin, log);
    } else {
      assert Loadable(img, v, info, begin, log + [x]);
    }
  }

  /** With the first check synced too, the new log is loaded whatever the second check is. */
  lemma TornSecond(f: seq<byte>, img: seq<byte>, w: Heads, info: seq<byte>, begin: nat, log: seq<seq<byte>>)
    requires LaidOut(f, w, info, Slots(log), log) && begin + |log| < U32 && |f| <= |img| < I64
    requires FromLE(w.head) == FromLE(w.a) == begin + |log|
    requires SameRange(f, img, 0, 8) && SameRange(f, img, 12, |f|)
    ensures CanLoad(img, info, begin, log)
  {
    TornCheck(f, img, w, info, Slots(log), log, 8);
    assert Loadable(img, w.(b := img[8..12]), info, begin, log);
  }

  lemma ExecSnoc(d: Disk, ops: seq<Op>, op: Op)
    ensures Exec(d, ops + [op]) == Step(Exec(d, ops), op)
  {
    assert (ops + [op])[..|ops|] == ops;
  }

  /** The disk after each operation that follows the first group of writes. */
  lemma CheckExec(f: seq<byte>, body: seq<Op>, h: seq<byte>)
    requires forall op :: op in body ==> op.Write?
    ensures var f1 := Run(f, body);
      var d, f2 := Disk(f, []), Put(f1, 4, h);
      && Exec(d, body + [Sync]) == Disk(f1, [])
      && Exec(d, body + [Sync] + [Write(4, h)]) == Disk(f1, [Write(4, h)])
      && Exec(d, body + [Sync] + [Write(4, h)] + [Sync]) == Disk(f2, [])
      && Exec(d, body + [Sync] + [Write(4, h)] + [Sync] + [Write(8, h)]) == Disk(f2, [Write(8, h)])
      && Exec(d, body + [Sync] + [Write(4, h)] + [Sync] + [Write(8, h)] + [Sync]) == Disk(Put(f2, 8, h), [])
  {
    var d := Disk(f, []);
    ExecWrites(d, body);
    assert [] + body == body;
    ExecSnoc(d, body, Sync);
    ExecSnoc(d, body + [Sync], Write(4, h));
    ExecSnoc(d, body + [Sync] + [Write(4, h)], Sync);
    RunSingle(Run(f, body), Write(4, h));
    ExecSnoc(d, body + [Sync] + [Write(4, h)] + [Sync], Write(8, h));
    ExecSnoc(d, body + [Sync] + [Write(4, h)] + [Sync] + [Write(8, h)], Sync);
    RunSingle(Put(Run(f, body), 4, h), Write(8, h));
  }

  /** How far a prefix of the operations of an append reaches. */
  lemma PrefixCases(body: seq<Op>, h: seq<byte>, k: nat)
    requires k <= |body| + 5
    ensures |body + CheckOps(h, true)| == |body| + 5
    ensures var ops := (body + CheckOps(h, true))[..k];
      && (k <= |body| ==> ops <= body)
      && (k == |body| + 1 ==> ops == body + [Sync])
      && (k == |body| + 2 ==> ops == body + [Sync] + [Write(4, h)])
      && (k == |body| + 3 ==> ops == body + [Sync] + [Write(4, h)] + [Sync])
      && (k == |body| + 4 ==> ops == body + [Sync] + [Write(4, h)] + [Sync] + [Write(8, h)])
      && (k == |body| + 5 ==> ops == body + [Sync] + [Write(4, h)] + [Sync] + [Write(8, h)] + [Sync])
  {
    assert CheckOps(h, true) == [Sync, Write(4, h), Sync, Write(8, h), Sync];
  }

  lemma RunSingle(f: seq<byte>, op: Op)
    requires op.Write?
    ensures Run(f, [op]) == Put(f, op.at, op.bytes)
  {
    assert [op][..0] == [];
  }

  /** A crash from the first sync on, `d` being what is on the disk and pending after `n` more operations. */
  lemma CrashInChecks(f1: seq<byte>, w: Heads, info: seq<byte>, begin: nat, log: seq<seq<byte>>, x: seq<byte>,
                      h: seq<byte>, n: nat, d: Disk, img: seq<byte>)
    requires LaidOut(f1, w, info, Slots(log + [x]), log + [x]) && begin + CHUNK_UNIT < U32
    requires |h| == 4 && w.head == h && FromLE(h) == begin + |log| + 1 && FromLE(w.a) == FromLE(w.b) == begin + |log|
    requires n == 1 ==> d == Disk(f1, [])
    requires n == 2 ==> d == Disk(f1, [Write(4, h)])
    requires n == 3 ==> d == Disk(Put(f1, 4, h), [])
    requires n == 4 ==> d == Disk(Put(f1, 4, h), [Write(8, h)])
    requires n == 5 ==> d == Disk(Put(Put(f1, 4, h), 8, h), [])
    requires 1 <= n <= 5 && Torn(d, img)
    ensures n == 1 ==> CanLoad(img, info, begin, log)
    ensures n == 2 ==> CanLoad(img, info, begin, log) || CanLoad(img, info, begin, log + [x])
    ensures n >= 3 ==> CanLoad(img, info, begin, log + [x])
  {
    if n <= 2 {
      TornSame(d, img, 0, 4);
      TornSame(d, img, 8, |f1|);
      if n == 1 {
        TornSame(d, img, 0, |f1|);
      }
      TornFirst(f1, img, w, info, begin, log, x);
    } else {
      ChecksRun(f1, w, info, Slots(log + [x]), log + [x], h);
      TornSame(d, img, 0, 8);
      TornSame(d, img, 12, |d.synced|);
      TornSecond(d.synced, img, if n == 5 then w.(a := h, b := h) else w.(a := h), info, begin, log + [x]);
    }
  }

  lemma ChecksRun(f: seq<byte>, w: Heads, info: seq<byte>, slots: seq<seq<byte>>, log: seq<seq<byte>>, h: seq<byte>)
    requires LaidOut(f, w, info, slots, log) && |h| == 4
    ensures LaidOut(Put(f, 4, h), w.(a := h), info, slots, log)
    ensures LaidOut(Put(Put(f, 4, h), 8, h), w.(a := h, b := h), info, slots, log)
  {
    PutHead(f, w, info, slots, log, h);
    PutHead(Put(f, 4, h), w.(a := h), info, slots, log, h);
  }

  lemma {:induction false} DataWritesCount(at: nat, cs: seq<seq<byte>>)
    ensures |DataWrites(at, cs)| == |cs|
  {
    if cs != [] {
      DataWritesCount(at, cs[..|cs| - 1]);
    }
  }

  /** The file when its first group of writes is on the disk. */
  lemma BodyDone(f: seq<byte>, w: Heads, info: seq<byte>, log: seq<seq<byte>>, cs: seq<seq<byte>>, s: seq<byte>,
                 h: seq<byte>, f1: seq<byte>, v: Heads, x: seq<byte>)
    requires LaidOut(f, w, info, Slots(log), log) && |log| < CHUNK_UNIT && |h| == 4 && x == Concat(cs)
    requires Offset(log, |log|) + |Concat(cs)| < I64 && s == ToLE(Offset(log, |log|) + |Concat(cs)|, 8)
    requires v == w.(head := h) && f1 == Run(f, BodyOps(Offset(log, |log|), |log|, cs, s, h))
    ensures LaidOut(f1, v, info, Slots(log + [x]), log + [x])
  {
    EndsSnoc(log, x, 8);
    BodyRuns(f, w, info, Slots(log), log, cs, s, h);
  }

  /** Crash safety of one synced append at `k` of its operations, in terms of what can be repaired. */
  lemma CrashStates(f: seq<byte>, info: seq<byte>, begin: nat, log: seq<seq<byte>>, cs: seq<seq<byte>>,
                    s: seq<byte>, h: seq<byte>, k: nat, img: seq<byte>)
    requires LaidOut(f, HeadsAt(begin + |log|), info, Slots(log), log) && begin + CHUNK_UNIT < U32 && |log| < CHUNK_UNIT
    requires Offset(log, |log|) + |Concat(cs)| < I64
    requires s == ToLE(Offset(log, |log|) + |Concat(cs)|, 8) && h == ToLE(begin + |log| + 1, 4)
    requires k <= |cs| + 7
    requires var ops := BodyOps(Offset(log, |log|), |log|, cs, s, h) + CheckOps(h, true);
      k <= |ops| && Torn(Exec(Disk(f, []), ops[..k]), img)
    ensures CanLoad(img, info, begin, log) || CanLoad(img, info, begin, log + [Concat(cs)])
    ensures k <= |cs| + 3 ==> CanLoad(img, info, begin, log)
    ensures k >= |cs| + 5 ==> CanLoad(img, info, begin, log + [Concat(cs)])
  {
    var off := Offset(log, |log|);
    var body := BodyOps(off, |log|, cs, s, h);
    DataWritesCount(off, cs);
    PrefixCases(body, h, k);
    var d := Exec(Disk(f, []), (body + CheckOps(h, true))[..k]);
    if k <= |body| {
      var ops := (body + CheckOps(h, true))[..k];
      TornGrows(f, ops, off, |log|, cs, s, h, img);
      TornInBody(f, info, begin, log, cs, s, h, ops, img);
    } else {
      BodyAreWrites(off, |log|, cs, s, h);
      CheckExec(f, body, h);
      var f1, v, x := Run(f, body), HeadsAt(begin + |log|).(head := h), Concat(cs);
      BodyThere(f, info, begin, log, cs, s, h, f1, v, x);
      CrashInChecks(f1, v, info, begin, log, x, h, k - |body|, d, img);
    }
  }

  lemma BodyThere(f: seq<byte>, info: seq<byte>, begin: nat, log: seq<seq<byte>>, cs: seq<seq<byte>>, s: seq<byte>,
                  h: seq<byte>, f1: seq<byte>, v: Heads, x: seq<byte>)
    requires LaidOut(f, HeadsAt(begin + |log|), info, Slots(log), log) && begin + CHUNK_UNIT < U32 && |log| < CHUNK_UNIT
    requires Offset(log, |log|) + |Concat(cs)| < I64 && x == Concat(cs)
    requires s == ToLE(Offset(log, |log|) + |Concat(cs)|, 8) && h == ToLE(begin + |log| + 1, 4)
    requires v == HeadsAt(begin + |log|).(head := h) && f1 == Run(f, BodyOps(Offset(log, |log|), |log|, cs, s, h))
    ensures LaidOut(f1, v, info, Slots(log + [x]), log + [x])
    ensures |h| == 4 && v.head == h && FromLE(h) == begin + |log| + 1 && FromLE(v.a) == FromLE(v.b) == begin + |log|
  {
    HeadsRead(begin + |log|, v, h);
    BodyDone(f, HeadsAt(begin + |log|), info, log, cs, s, h, f1, v, x);
  }

  lemma HeadsRead(at: nat, v: Heads, h: seq<byte>)
    requires at + 1 < U32 && v == HeadsAt(at).(head := h) && h == ToLE(at + 1, 4)
    ensures |h| == 4 && v.head == h && FromLE(h) == at + 1 && FromLE(v.a) == FromLE(v.b) == at
  {
    RoundTrip32(at);
    RoundTrip32(at + 1);
  }

  lemma TornGrows(f: seq<byte>, ops: seq<Op>, off: nat, from: nat, cs: seq<seq<byte>>, s: seq<byte>, h: seq<byte>,
                  img: seq<byte>)
    requires ops <= BodyOps(off, from, cs, s, h) && Torn(Exec(Disk(f, []), ops), img)
    ensures |f| <= |img|
  {
    BodyAreWrites(off, from, cs, s, h);
    assert forall op :: op in ops ==> op in BodyOps(off, from, cs, s, h);
    ExecWrites(Disk(f, []), ops);
  }

  /** The file operations of one append to a well-formed pile. */
  function OpsFor(begin: nat, log: seq<seq<byte>>, cs: seq<seq<byte>>, sync: bool): seq<Op> {
    AppendOps(Offset(log, |log|), |log|, begin + |log|, cs, sync)
  }

  lemma OpsCount(begin: nat, log: seq<seq<byte>>, cs: seq<seq<byte>>)
    ensures |OpsFor(begin, log, cs, true)| == |cs| + 7
  {
    DataWritesCount(Offset(log, |log|), cs);
  }

  /** Crash safety of one synced append: whatever a crash leaves of it, at whichever operation, loads as
      the old log or the new one: the old one before the first check is written, the new one once it
      has been synced. */
  lemma CrashSafe(f: seq<byte>, begin: nat, gen: seq<byte>, log: seq<seq<byte>>, cs: seq<seq<byte>>, k: nat,
                  img: seq<byte>)
      returns (made: bool)
    requires WellFormed(f, begin, gen, log) && |log| < CHUNK_UNIT
    requires Offset(log, |log|) + |Concat(cs)| < I64
    requires k <= |OpsFor(begin, log, cs, true)| && Torn(Exec(Disk(f, []), OpsFor(begin, log, cs, true)[..k]), img)
    ensures k <= |cs| + 3 ==> !made
    ensures k >= |cs| + 5 ==> made
    ensures LoadsAs(img, begin, gen, if made then log + [Concat(cs)] else log)
  {
    OpsCount(begin, log, cs);
    CrashStates(f, Info(begin, gen), begin, log, cs,
                ToLE(Offset(log, |log|) + |Concat(cs)|, 8), ToLE(begin + |log| + 1, 4), k, img);
    made := k >= |cs| + 5 || (k == |cs| + 4 && !CanLoad(img, Info(begin, gen), begin, log));
    Loads(img, begin, gen, if made then log + [Concat(cs)] else log);
  }
}
