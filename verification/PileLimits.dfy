/** Where crash safety ends: appends without syncs, and a file that has just been created. */
module PileLimits {
  import opened Bytes
  import opened PileFormat
  import opened PileCrash
  import opened PileRuns

  // ---- appends without syncs ----

  /** The four writes that decide what the file says about its last record. */
  function FourWrites(i: nat, s: seq<byte>, h: seq<byte>): seq<Op> {
    [Write(SlotAt(i), s), Write(0, h), Write(4, h), Write(8, h)]
  }

  lemma UnsyncedOps(f: seq<byte>, off: nat, from: nat, cs: seq<seq<byte>>, s: seq<byte>, h: seq<byte>, ops: seq<Op>)
    requires ops == BodyOps(off, from, cs, s, h) + CheckOps(h, false)
    ensures Exec(Disk(f, []), ops) == Disk(f, ops)
    ensures forall op :: op in FourWrites(from, s, h) ==> op in ops
  {
    BodyAreWrites(off, from, cs, s, h);
    ExecWrites(Disk(f, []), ops);
    assert [] + ops == ops;
  }

  /** Only its own write touches the slot. */
  lemma SlotWrite(off: nat, from: nat, cs: seq<seq<byte>>, s: seq<byte>, h: seq<byte>, ops: seq<Op>, op: Op, i: nat)
    requires ops == BodyOps(off, from, cs, s, h) + CheckOps(h, false) && op in ops && Covers(op, i)
    requires HEADER_SIZE <= off && from < CHUNK_UNIT && |s| == 8 && |h| == 4 && SlotAt(from) <= i < SlotAt(from) + 8
    ensures op == Write(SlotAt(from), s)
  {
    if op in DataWrites(off, cs) {
      DataWritesCover(off, cs, op, i);
    }
  }

  /** The file with new head heights and the bytes `s` in slot `i`, and nothing else changed. */
  function Mixed(f: seq<byte>, i: nat, s: seq<byte>, h: seq<byte>): seq<byte> {
    Put(Put(Put(Put(f, SlotAt(i), s), 0, h), 4, h), 8, h)
  }

  lemma MixedSame(f: seq<byte>, i: nat, s: seq<byte>, h: seq<byte>, lo: nat, hi: nat)
    requires |f| >= HEADER_SIZE && i < CHUNK_UNIT && |s| == 8 && |h| == 4 && hi <= |f|
    requires 12 <= lo && (hi <= SlotAt(i) || SlotAt(i) + 8 <= lo)
    ensures |Mixed(f, i, s, h)| == |f| && SameRange(f, Mixed(f, i, s, h), lo, hi)
  {
    var f1 := Put(f, SlotAt(i), s);
    var f2 := Put(f1, 0, h);
    var f3 := Put(f2, 4, h);
    PutSame(f, SlotAt(i), s, lo, hi);
    PutSame(f1, 0, h, lo, hi);
    PutSame(f2, 4, h, lo, hi);
    PutSame(f3, 8, h, lo, hi);
  }

  /** Each byte of `m` is that of `o` or that of `s`. */
  predicate MixOf(m: seq<byte>, o: seq<byte>, s: seq<byte>) {
    |m| == |o| == |s| == 8 && forall j :: 0 <= j < 8 ==> m[j] == o[j] || m[j] == s[j]
  }

  /** A slot that says that the record ends before it begins, or that reads as a negative number. */
  predicate Misleads(m: seq<byte>, off: nat) { FromLE(m) < off || FromLE(m) >= I64 }

  lemma MixedKept(f: seq<byte>, i: nat, o: seq<byte>, s: seq<byte>, m: seq<byte>, h: seq<byte>, ops: seq<Op>,
                  img: seq<byte>)
    requires HEADER_SIZE <= |f| < I64 && i < CHUNK_UNIT && |h| == 4 && MixOf(m, o, s) && Has(f, SlotAt(i), o)
    requires img == Mixed(f, i, m, h) && forall op :: op in FourWrites(i, s, h) ==> op in ops
    requires Has(img, 0, h) && Has(img, 4, h) && Has(img, 8, h) && Has(img, SlotAt(i), m)
    ensures KeptOrLost(Disk(f, ops), img)
  {
    MixedSame(f, i, m, h, 12, SlotAt(i));
    MixedSame(f, i, m, h, SlotAt(i) + 8, |f|);
    var four := FourWrites(i, s, h);
    assert four[0] in four && four[1] in four && four[2] in four && four[3] in four;
    forall j | 0 <= j < |img| ensures ByteKept(Disk(f, ops), img, j) {
      if j < 4 {
        assert img[j] == img[0..4][j] && Covers(four[1], j);
      } else if j < 8 {
        assert img[j] == img[4..8][j - 4] && Covers(four[2], j);
      } else if j < 12 {
        assert img[j] == img[8..12][j - 8] && Covers(four[3], j);
      } else if SlotAt(i) <= j < SlotAt(i) + 8 {
        SlotKept(f, SlotAt(i), o, s, m, ops, img, j);
      }
    }
  }

  lemma SlotKept(f: seq<byte>, at: nat, o: seq<byte>, s: seq<byte>, m: seq<byte>, ops: seq<Op>, img: seq<byte>,
                     j: nat)
    requires MixOf(m, o, s) && Has(f, at, o) && Has(img, at, m) && Write(at, s) in ops && at <= j < at + 8
    ensures ByteKept(Disk(f, ops), img, j)
  {
    assert img[j] == img[at..at + 8][j - at] == m[j - at] && f[j] == f[at..at + 8][j - at] == o[j - at];
    assert Covers(Write(at, s), j);
  }

  lemma SlotOnly(f: seq<byte>, w: Heads, info: seq<byte>, slots: seq<seq<byte>>, log: seq<seq<byte>>, z: seq<byte>)
    requires LaidOut(f, w, info, slots, log) && |log| < CHUNK_UNIT && |z| == 8
    ensures var g := Put(f, SlotAt(|log|), z);
      LaidOut(g, w, info, slots, log) && Has(g, SlotAt(|log|), z)
  {
    var at := SlotAt(|log|);
    var g := Put(f, at, z);
    OffsetGrows(log, 0, |log|);
    PutHas(f, at, z);
    PutSame(f, at, z, 0, at);
    PutSame(f, at, z, HEADER_SIZE, |f|);
    LaidOutFrame(f, g, w, info, slots, log);
    HasFrame(f, g, 0, at, 0, w.head);
  }

  lemma HeadsOnly(f: seq<byte>, w: Heads, info: seq<byte>, slots: seq<seq<byte>>, log: seq<seq<byte>>, z: seq<byte>,
                  h: seq<byte>)
    requires LaidOut(f, w, info, slots, log) && |log| < CHUNK_UNIT && |z| == 8 && |h| == 4
    requires Has(f, SlotAt(|log|), z)
    ensures var g := Put(Put(Put(f, 0, h), 4, h), 8, h);
      LaidOut(g, Heads(h, h, h), info, slots, log) && Has(g, SlotAt(|log|), z)
  {
    PutHead(f, w, info, slots, log, h);
    var f1 := Put(f, 0, h);
    ChecksRun(f1, w.(head := h), info, slots, log, h);
    var f2 := Put(f1, 4, h);
    PutSame(f, 0, h, 12, |f|);
    PutSame(f1, 4, h, 12, |f|);
    PutSame(f2, 8, h, 12, |f|);
    HasFrame(f, Put(f2, 8, h), 12, |f|, SlotAt(|log|), z);
  }

  lemma SlotEnd(img: seq<byte>, n: nat, z: seq<byte>)
    requires |z| == 8 && Has(img, SlotAt(n), z)
    ensures EndOf(img, n + 1) == Off(Int64(FromLE(z)))
  {
    HasReads(img, SlotAt(n), z);
  }

  lemma MisleadingFits(z: seq<byte>, off: nat, size: nat)
    requires |z| == 8 && Misleads(z, off) && off <= size
    ensures Int64(FromLE(z)) <= size
  {
    FromLEBound(z);
    Widths();
  }

  /** A misleading slot passes the check of the file size. */
  lemma MisleadingFinish(img: seq<byte>, begin: nat, n: nat, gen: seq<byte>, h: nat, z: seq<byte>, off: nat,
                         r: LoadResult)
    requires |z| == 8 && Misleads(z, off) && off <= |img| && Has(img, SlotAt(n), z)
    requires n < CHUNK_UNIT && begin % CHUNK_UNIT == 0 && begin + CHUNK_UNIT < U32
    requires h == begin + n + 1 && r == Loaded(img, h, begin, gen)
    ensures LoadWith(img, h, h, h, begin, begin + CHUNK_UNIT, gen) == r
  {
    SlotEnd(img, n, z);
    MisleadingFits(z, off, |img|);
    LoadSteps(img, h, h, h, begin, gen, [], img, h);
  }

  lemma LoadFrom(img: seq<byte>, w: Heads, info: seq<byte>, slots: seq<seq<byte>>, log: seq<seq<byte>>,
                 begin: nat, gen: seq<byte>, h: nat, r: LoadResult)
    requires LaidOut(img, w, info, slots, log) && ValidInfo(begin, gen) && info == Info(begin, gen)
    requires h == FromLE(w.head) && w.head == w.a == w.b
    requires LoadWith(img, h, h, h, begin, begin + CHUNK_UNIT, gen) == r
    ensures LoadPile(img) == r
  {
    LoadReads(img, w, info, slots, begin, gen, log);
  }

  lemma HasBoth(f: seq<byte>, at: nat, x: seq<byte>, y: seq<byte>)
    requires Has(f, at, x) && Has(f, at, y) && |x| == |y|
    ensures x == y
  {
  }

  /** Two logs in one file have their records at the same places. */
  lemma SamePlaces(img: seq<byte>, log: seq<seq<byte>>, other: seq<seq<byte>>, n: nat)
    requires Holds(img, Slots(log), log) && Holds(img, Slots(other), other) && n <= |log| && n <= |other|
    ensures Offset(log, n) == Offset(other, n)
  {
    if n > 0 { SamePlace(img, Slots(log), log, Slots(other), other, n - 1); }
  }

  lemma SamePlace(img: seq<byte>, slots: seq<seq<byte>>, log: seq<seq<byte>>, others: seq<seq<byte>>,
                  other: seq<seq<byte>>, n: nat)
    requires n < |log| && n < |other| && slots == Slots(log) && others == Slots(other)
    requires Holds(img, slots, log) && Holds(img, others, other)
    ensures Offset(log, n + 1) == Offset(other, n + 1)
  {
    var z := slots[n];
    HeldSlot(img, slots, log, n);
    SlotTells(img, slots, log, n, z);
    SlotTells(img, others, other, n, z);
  }

  lemma NoRecordThere(img: seq<byte>, log: seq<seq<byte>>, w: Heads, info: seq<byte>, other: seq<seq<byte>>, n: nat,
                      z: seq<byte>, h: seq<byte>)
    requires |h| == 4 && Has(img, 0, h) && |z| == 8 && Has(img, SlotAt(n), z) && n == |log|
    requires Holds(img, Slots(log), log) && Misleads(z, Offset(log, n))
    requires |other| == n + 1 || FromLE(w.head) != FromLE(h)
    ensures !LaidOut(img, w, info, Slots(other), other)
  {
    if LaidOut(img, w, info, Slots(other), other) {
      HasBoth(img, 0, h, w.head);
      SlotTells(img, Slots(other), other, n, z);
      SamePlaces(img, log, other, n);
      assert false;
    }
  }

  lemma SlotTells(img: seq<byte>, slots: seq<seq<byte>>, log: seq<seq<byte>>, n: nat, z: seq<byte>)
    requires Holds(img, slots, log) && slots == Slots(log) && n < |log| && |z| == 8 && Has(img, SlotAt(n), z)
    ensures FromLE(z) == Offset(log, n + 1) >= HEADER_SIZE
  {
    HeldSlot(img, slots, log, n);
    HasBoth(img, SlotAt(n), z, slots[n]);
    SlotsAt(log, n);
    OffsetGrows(log, 0, n + 1);
  }

  /** No log at all is in the file. */
  ghost predicate NoLog(img: seq<byte>, begin: nat, gen: seq<byte>) {
    forall other :: !WellFormed(img, begin, gen, other)
  }

  lemma MisleadingNoLog(img: seq<byte>, begin: nat, gen: seq<byte>, slots: seq<seq<byte>>, log: seq<seq<byte>>, n: nat,
                        z: seq<byte>, h: seq<byte>)
    requires n == |log| < CHUNK_UNIT && begin + CHUNK_UNIT < U32 && |h| == 4 && FromLE(h) == begin + n + 1
    requires Has(img, 0, h)
    requires |z| == 8 && Has(img, SlotAt(n), z) && Misleads(z, Offset(log, n)) && slots == Slots(log)
    requires Holds(img, slots, log)
    ensures NoLog(img, begin, gen)
  {
    forall other | |other| <= CHUNK_UNIT ensures !WellFormed(img, begin, gen, other) {
      RoundTrip32(begin + |other|);
      NoRecordThere(img, log, HeadsAt(begin + |other|), Info(begin, gen), other, n, z, h);
    }
  }

  lemma SlotsAt(log: seq<seq<byte>>, n: nat)
    requires n < |log| && Offset(log, |log|) < I64
    ensures FromLE(Slots(log)[n]) == Offset(log, n + 1)
  {
    EndsAt(log, 8, n);
    OffsetGrows(log, n + 1, |log|);
    RoundTrip64(Offset(log, n + 1));
  }

  lemma MixedLaid(f: seq<byte>, w: Heads, info: seq<byte>, slots: seq<seq<byte>>, log: seq<seq<byte>>, z: seq<byte>,
                  h: seq<byte>)
    requires LaidOut(f, w, info, slots, log) && |log| < CHUNK_UNIT && |z| == 8 && |h| == 4
    ensures var img := Mixed(f, |log|, z, h);
      LaidOut(img, Heads(h, h, h), info, slots, log) && Has(img, SlotAt(|log|), z)
  {
    SlotOnly(f, w, info, slots, log, z);
    HeadsOnly(Put(f, SlotAt(|log|), z), w, info, slots, log, z, h);
  }

  lemma MixedLoads(f: seq<byte>, w: Heads, info: seq<byte>, slots: seq<seq<byte>>, log: seq<seq<byte>>,
                   begin: nat, gen: seq<byte>, z: seq<byte>, h: seq<byte>, n: nat, img: seq<byte>)
    requires LaidOut(f, w, info, slots, log) && ValidInfo(begin, gen) && info == Info(begin, gen)
    requires |log| < CHUNK_UNIT && |z| == 8 && Misleads(z, Offset(log, |log|))
    requires |h| == 4 && n == FromLE(h) == begin + |log| + 1 && img == Mixed(f, |log|, z, h)
    ensures LoadPile(img) == Loaded(img, n, begin, gen)
  {
    MixedLaid(f, w, info, slots, log, z, h);
    MisleadingFinish(img, begin, |log|, gen, n, z, Offset(log, |log|), Loaded(img, n, begin, gen));
    LoadFrom(img, Heads(h, h, h), info, slots, log, begin, gen, n, Loaded(img, n, begin, gen));
  }

  lemma UnsyncedPending(f: seq<byte>, begin: nat, log: seq<seq<byte>>, cs: seq<seq<byte>>, s: seq<byte>,
                        h: seq<byte>, ops: seq<Op>)
    requires ops == OpsFor(begin, log, cs, false)
    requires s == ToLE(Offset(log, |log|) + |Concat(cs)|, 8) && h == ToLE(begin + |log| + 1, 4)
    ensures ops == BodyOps(Offset(log, |log|), |log|, cs, s, h) + CheckOps(h, false)
    ensures Exec(Disk(f, []), ops) == Disk(f, ops)
    ensures forall op :: op in FourWrites(|log|, s, h) ==> op in ops
  {
    UnsyncedOps(f, Offset(log, |log|), |log|, cs, s, h, ops);
  }

  /** The crash leaves a file that loads with the given height and then holds no log at all. */
  ghost predicate LoadsWithoutLog(img: seq<byte>, begin: nat, gen: seq<byte>, h: nat) {
    var l := LoadPile(img);
    l.Loaded? && l.head == h && NoLog(l.file, begin, gen)
  }

  /** A misleading mix of the old and the new bytes of the slot is enough, with the new head heights. */
  lemma UnsyncedCrash(f: seq<byte>, begin: nat, gen: seq<byte>, log: seq<seq<byte>>, cs: seq<seq<byte>>, o: seq<byte>,
                      s: seq<byte>, m: seq<byte>, ops: seq<Op>) returns (img: seq<byte>)
    requires WellFormed(f, begin, gen, log) && |log| < CHUNK_UNIT && ops == OpsFor(begin, log, cs, false)
    requires Has(f, SlotAt(|log|), o) && s == ToLE(Offset(log, |log|) + |Concat(cs)|, 8)
    requires MixOf(m, o, s) && Misleads(m, Offset(log, |log|))
    ensures KeptOrLost(Exec(Disk(f, []), ops), img) && LoadsWithoutLog(img, begin, gen, begin + |log| + 1)
  {
    var n, w := begin + |log| + 1, HeadsAt(begin + |log|);
    var h := ToLE(n, 4);
    RoundTrip32(n);
    UnsyncedPending(f, begin, log, cs, s, h, ops);
    img := Mixed(f, |log|, m, h);
    MixedLaid(f, w, Info(begin, gen), Slots(log), log, m, h);
    MixedKept(f, |log|, o, s, m, h, ops, img);
    MixedLoads(f, w, Info(begin, gen), Slots(log), log, begin, gen, m, h, n, img);
    MisleadingNoLog(img, begin, gen, Slots(log), log, |log|, m, h);
  }

  // ---- and nothing less is ----

  lemma UnsyncedCovers(off: nat, from: nat, cs: seq<seq<byte>>, s: seq<byte>, h: seq<byte>, ops: seq<Op>, op: Op,
                       i: nat)
    requires ops == BodyOps(off, from, cs, s, h) + CheckOps(h, false) && op in ops && Covers(op, i)
    requires |s| == 8 && |h| == 4
    ensures i < 12 || SlotAt(from) <= i < SlotAt(from) + 8 || off <= i
  {
    if op in DataWrites(off, cs) {
      DataWritesCover(off, cs, op, i);
    }
  }

  lemma UnsyncedSpares(f: seq<byte>, off: nat, from: nat, cs: seq<seq<byte>>, s: seq<byte>, h: seq<byte>, ops: seq<Op>,
                       img: seq<byte>)
    requires ops == BodyOps(off, from, cs, s, h) + CheckOps(h, false) && |s| == 8 && |h| == 4
    requires Torn(Disk(f, ops), img) && HEADER_SIZE <= off <= |f| && from < CHUNK_UNIT
    ensures SameRange(f, img, 12, SlotAt(from)) && SameRange(f, img, HEADER_SIZE, off)
  {
    forall i, op | 12 <= i < SlotAt(from) && op in ops ensures !Covers(op, i) {
      if Covers(op, i) { UnsyncedCovers(off, from, cs, s, h, ops, op, i); }
    }
    forall i, op | HEADER_SIZE <= i < off && op in ops ensures !Covers(op, i) {
      if Covers(op, i) { UnsyncedCovers(off, from, cs, s, h, ops, op, i); }
    }
    TornSame(Disk(f, ops), img, 12, SlotAt(from));
    TornSame(Disk(f, ops), img, HEADER_SIZE, off);
  }

  /** What the slot may become. */
  lemma SlotMixed(f: seq<byte>, off: nat, from: nat, cs: seq<seq<byte>>, s: seq<byte>, h: seq<byte>, ops: seq<Op>,
                  img: seq<byte>, o: seq<byte>, m: seq<byte>)
    requires ops == BodyOps(off, from, cs, s, h) + CheckOps(h, false) && |s| == 8 && |h| == 4 && |o| == 8 && |m| == 8
    requires HEADER_SIZE <= off && from < CHUNK_UNIT && KeptOrLost(Disk(f, ops), img)
    requires Has(f, SlotAt(from), o) && Has(img, SlotAt(from), m)
    ensures MixOf(m, o, s)
  {
    var at := SlotAt(from);
    forall j | 0 <= j < 8 ensures m[j] == o[j] || m[j] == s[j] {
      assert m[j] == img[at..at + 8][j] == img[at + j] && o[j] == f[at..at + 8][j] == f[at + j];
      assert ByteKept(Disk(f, ops), img, at + j);
      if m[j] != o[j] {
        var op :| op in ops && Covers(op, at + j) && op.bytes[at + j - op.at] == img[at + j];
        SlotWrite(off, from, cs, s, h, ops, op, at + j);
      }
    }
  }

  /** The log is in place whatever has become of the head heights. */
  lemma AnyHeads(f: seq<byte>, img: seq<byte>, w: Heads, info: seq<byte>, slots: seq<seq<byte>>, log: seq<seq<byte>>,
                 u: Heads)
    requires LaidOut(f, w, info, slots, log) && HEADER_SIZE <= |img| < I64
    requires SameRange(f, img, 12, SlotAt(|log|)) && SameRange(f, img, HEADER_SIZE, Offset(log, |log|))
    requires u == Heads(img[0..4], img[4..8], img[8..12])
    ensures LaidOut(img, u, info, slots, log)
  {
    HoldsFrame(f, img, slots, log);
    HasFrame(f, img, 12, SlotAt(|log|), 12, info);
  }

  /** A height above zero that the repair settles on needs no wrap. */
  lemma RepairedTo(head: nat, a: nat, b: nat, h: nat, ops: seq<Op>)
    requires 0 < h < U32 && b < U32 && Repair(head, a, b) == Repaired(ops, h)
    ensures Repairable(head, a, b, h)
  {
    RepairIff(head, a, b, h);
  }

  /** The repair leaves everything behind the head heights as it is. */
  lemma RepairSpares(f: seq<byte>, head: nat, a: nat, b: nat, h: nat, ops: seq<Op>, at: nat, m: seq<byte>)
    requires h < U32 && b < U32 && Repairable(head, a, b, h) && Repair(head, a, b) == Repaired(ops, h)
    requires 12 <= at && Has(f, at, m)
    ensures Has(Run(f, ops), at, m)
  {
    RepairCases(head, a, b, h);
    var v := ToLE(h, 4);
    RunTwo(f, Write(0, v));
    RunTwo(f, Write(8, v));
    RunThree(f, Write(4, v), Write(8, v));
    PutSame(f, 0, v, 12, |f|);
    PutSame(f, 8, v, 12, |f|);
    PutSame(f, 4, v, 12, |f|);
    PutSame(Put(f, 4, v), 8, v, 12, |f|);
    HasFrame(f, Put(f, 0, v), 12, |f|, at, m);
    HasFrame(f, Put(f, 8, v), 12, |f|, at, m);
    HasFrame(f, Put(f, 4, v), 12, |f|, at, m);
    HasFrame(Put(f, 4, v), Put(Put(f, 4, v), 8, v), 12, |f|, at, m);
  }

  /** A file that loads: the repair accepts its head heights, and its last slot does not point behind its end. */
  lemma LoadTells(img: seq<byte>, u: Heads, info: seq<byte>, slots: seq<seq<byte>>, log: seq<seq<byte>>, begin: nat,
                  gen: seq<byte>, h: nat, l: LoadResult) returns (ops: seq<Op>)
    requires LaidOut(img, u, info, slots, log) && ValidInfo(begin, gen) && info == Info(begin, gen)
    requires l == LoadPile(img) && l.Loaded? && l.head == h
    ensures Repair(FromLE(u.head), FromLE(u.a), FromLE(u.b)) == Repaired(ops, h) && l.file == Run(img, ops)
    ensures Finish(l.file, h, begin, gen) == l
  {
    LoadReads(img, u, info, slots, begin, gen, log);
    ops := Repair(FromLE(u.head), FromLE(u.a), FromLE(u.b)).ops;
  }

  lemma FinishTells(g: seq<byte>, begin: nat, gen: seq<byte>, n: nat, h: nat, m: seq<byte>, l: LoadResult)
    requires h == begin + n + 1 < U32 && |m| == 8 && Has(g, SlotAt(n), m) && Finish(g, h, begin, gen) == l && l.Loaded?
    ensures Int64(FromLE(m)) <= |g|
  {
    SlotEnd(g, n, m);
    EndFits(g, begin, gen, n, h, EndOf(g, n + 1), l);
  }

  lemma EndFits(g: seq<byte>, begin: nat, gen: seq<byte>, n: nat, h: nat, end: OffsetResult, l: LoadResult)
    requires h == begin + n + 1 < U32 && end == EndOf(g, n + 1) && Finish(g, h, begin, gen) == l && l.Loaded?
    ensures end.Off? && end.at <= |g|
  {
    assert (h - begin) % U32 == n + 1;
  }

  lemma EndsGrow(log: seq<seq<byte>>, m: seq<byte>, x: seq<byte>, width: nat)
    requires |m| == width && FromLE(m) == Offset(log, |log|) + |x|
    ensures Ends(log + [x], width) == Ends(log, width) + [m]
  {
    RoundTripBytes(m);
    EndsSnoc(log, x, width);
  }

  lemma LaidWell(g: seq<byte>, begin: nat, gen: seq<byte>, w: Heads, slots: seq<seq<byte>>, log: seq<seq<byte>>)
    requires ValidInfo(begin, gen) && slots == Slots(log) && w == HeadsAt(begin + |log|)
    requires LaidOut(g, w, Info(begin, gen), slots, log)
    ensures WellFormed(g, begin, gen, log)
  {
  }

  lemma SlotsGrow(slots: seq<seq<byte>>, log: seq<seq<byte>>, m: seq<byte>, x: seq<byte>, more: seq<seq<byte>>,
                  all: seq<seq<byte>>)
    requires slots == Slots(log) && |m| == 8 && FromLE(m) == Offset(log, |log|) + |x|
    requires more == slots + [m] && all == log + [x]
    ensures more == Slots(all)
  {
    EndsGrow(log, m, x, 8);
  }

  /** A slot that does not mislead adds a record to the log. */
  lemma RecordThere(g: seq<byte>, begin: nat, gen: seq<byte>, w: Heads, info: seq<byte>, slots: seq<seq<byte>>,
                    log: seq<seq<byte>>, m: seq<byte>, off: nat, x: seq<byte>, more: seq<seq<byte>>,
                    all: seq<seq<byte>>, h: nat)
    requires ValidInfo(begin, gen) && |log| < CHUNK_UNIT && |m| == 8 && info == Info(begin, gen) && more == Slots(all)
    requires h == begin + |all| && w == HeadsAt(h) && LaidOut(g, w, info, slots, log) && off == Offset(log, |log|)
    requires Has(g, SlotAt(|log|), m) && Has(g, off, x) && more == slots + [m] && all == log + [x]
    ensures WellFormed(g, begin, gen, all)
  {
    HoldsSnoc(g, slots, log, m, x);
    LaidWell(g, begin, gen, w, more, all);
  }

  lemma RecordFound(g: seq<byte>, begin: nat, gen: seq<byte>, w: Heads, info: seq<byte>, slots: seq<seq<byte>>,
                    log: seq<seq<byte>>, m: seq<byte>, off: nat, end: nat, x: seq<byte>, h: nat)
    requires ValidInfo(begin, gen) && |log| < CHUNK_UNIT && |m| == 8 && slots == Slots(log) && info == Info(begin, gen)
    requires h == begin + |log| + 1 && w == HeadsAt(h) && LaidOut(g, w, info, slots, log) && off == Offset(log, |log|)
    requires Has(g, SlotAt(|log|), m) && end == FromLE(m) && off <= end <= |g| && x == g[off..end]
    ensures !NoLog(g, begin, gen)
  {
    var more, all := slots + [m], log + [x];
    SlotsGrow(slots, log, m, x, more, all);
    RecordThere(g, begin, gen, w, info, slots, log, m, off, x, more, all, h);
  }

  /** What the repair makes of the file. */
  lemma RepairedFile(img: seq<byte>, u: Heads, info: seq<byte>, slots: seq<seq<byte>>, log: seq<seq<byte>>,
                     m: seq<byte>,
                     h: nat, ops: seq<Op>, at: nat)
    requires LaidOut(img, u, info, slots, log) && 0 < h < U32 && 12 <= at && Has(img, at, m)
    requires Repair(FromLE(u.head), FromLE(u.a), FromLE(u.b)) == Repaired(ops, h)
    ensures LaidOut(Run(img, ops), HeadsAt(h), info, slots, log) && Has(Run(img, ops), at, m)
  {
    FromLEBound(u.b);
    Widths();
    RepairedTo(FromLE(u.head), FromLE(u.a), FromLE(u.b), h, ops);
    RepairSpares(img, FromLE(u.head), FromLE(u.a), FromLE(u.b), h, ops, at, m);
    var fixed := RepairGives(img, u, info, slots, log, h);
  }

  lemma FileHasLog(g: seq<byte>, begin: nat, gen: seq<byte>, w: Heads, info: seq<byte>, slots: seq<seq<byte>>,
                     log: seq<seq<byte>>, m: seq<byte>, off: nat, h: nat)
    requires ValidInfo(begin, gen) && |log| < CHUNK_UNIT && |m| == 8 && slots == Slots(log) && info == Info(begin, gen)
    requires h == begin + |log| + 1 && w == HeadsAt(h) && LaidOut(g, w, info, slots, log) && off == Offset(log, |log|)
    requires Has(g, SlotAt(|log|), m) && Int64(FromLE(m)) <= |g| && !Misleads(m, off)
    ensures !NoLog(g, begin, gen)
  {
    var end := FromLE(m);
    RecordFound(g, begin, gen, w, info, slots, log, m, off, end, g[off..end], h);
  }

  lemma NotMisled(img: seq<byte>, u: Heads, begin: nat, gen: seq<byte>, info: seq<byte>, slots: seq<seq<byte>>,
                  log: seq<seq<byte>>, m: seq<byte>, off: nat, h: nat)
    requires LaidOut(img, u, info, slots, log) && ValidInfo(begin, gen) && info == Info(begin, gen)
    requires slots == Slots(log)
    requires |log| < CHUNK_UNIT && h == begin + |log| + 1 && |m| == 8 && Has(img, SlotAt(|log|), m)
    requires off == Offset(log, |log|) && LoadsWithoutLog(img, begin, gen, h)
    ensures Misleads(m, off)
  {
    var l := LoadPile(img);
    var ops := LoadTells(img, u, info, slots, log, begin, gen, h, l);
    RepairedFile(img, u, info, slots, log, m, h, ops, SlotAt(|log|));
    FinishTells(l.file, begin, gen, |log|, h, m, l);
    if !Misleads(m, off) { FileHasLog(l.file, begin, gen, HeadsAt(h), info, slots, log, m, off, h); }
  }

  lemma CrashMisleads(f: seq<byte>, w: Heads, begin: nat, gen: seq<byte>, info: seq<byte>, slots: seq<seq<byte>>,
                      log: seq<seq<byte>>, off: nat, img: seq<byte>, m: seq<byte>, h: nat)
    requires LaidOut(f, w, info, slots, log) && ValidInfo(begin, gen) && info == Info(begin, gen) && slots == Slots(log)
    requires |log| < CHUNK_UNIT && off == Offset(log, |log|) && HEADER_SIZE <= |img| < I64 && |m| == 8
    requires SameRange(f, img, 12, SlotAt(|log|)) && SameRange(f, img, HEADER_SIZE, off) && Has(img, SlotAt(|log|), m)
    requires h == begin + |log| + 1 && LoadsWithoutLog(img, begin, gen, h)
    ensures Misleads(m, off)
  {
    var u := Heads(img[0..4], img[4..8], img[8..12]);
    AnyHeads(f, img, w, info, slots, log, u);
    NotMisled(img, u, begin, gen, info, slots, log, m, off, h);
  }

  /** The slot in the image is a mix, and the log before it is as it was. */
  lemma CrashMixes(f: seq<byte>, n: nat, cs: seq<seq<byte>>, off: nat, o: seq<byte>, s: seq<byte>, h: seq<byte>,
                   ops: seq<Op>, img: seq<byte>, m: seq<byte>)
    requires n < CHUNK_UNIT && HEADER_SIZE <= off <= |f| && |o| == |s| == 8 && |h| == 4 && Has(f, SlotAt(n), o)
    requires ops == BodyOps(off, n, cs, s, h) + CheckOps(h, false) && KeptOrLost(Disk(f, ops), img)
    requires m == img[SlotAt(n)..SlotAt(n) + 8]
    ensures MixOf(m, o, s) && SameRange(f, img, 12, SlotAt(n)) && SameRange(f, img, HEADER_SIZE, off)
  {
    KeptIsTorn(Disk(f, ops), img);
    UnsyncedSpares(f, off, n, cs, s, h, ops, img);
    SlotMixed(f, off, n, cs, s, h, ops, img, o, m);
  }

  /** Such an image of a crash, and such a mix. */
  ghost predicate LosesLog(f: seq<byte>, ops: seq<Op>, begin: nat, gen: seq<byte>, h: nat, img: seq<byte>) {
    KeptOrLost(Exec(Disk(f, []), ops), img) && LoadsWithoutLog(img, begin, gen, h)
  }

  predicate MisleadingMix(o: seq<byte>, s: seq<byte>, off: nat, m: seq<byte>) { MixOf(m, o, s) && Misleads(m, off) }

  /** Without syncs, for every pile and every record: a crash in which every byte is kept or lost can leave a file that
      loads with the new height and holds no log, if and only if some mix of what was in the slot of the record and of
      what was to be there misleads. */
  lemma UnsyncedIff(f: seq<byte>, begin: nat, gen: seq<byte>, log: seq<seq<byte>>, cs: seq<seq<byte>>, off: nat,
                    o: seq<byte>, s: seq<byte>, ops: seq<Op>, h: nat)
    requires WellFormed(f, begin, gen, log) && |log| < CHUNK_UNIT && ops == OpsFor(begin, log, cs, false)
    requires off == Offset(log, |log|) && h == begin + |log| + 1
    requires |o| == 8 && Has(f, SlotAt(|log|), o) && s == ToLE(off + |Concat(cs)|, 8)
    ensures (exists img :: LosesLog(f, ops, begin, gen, h, img)) <==> (exists m :: MisleadingMix(o, s, off, m))
  {
    if m :| MisleadingMix(o, s, off, m) {
      var img := UnsyncedCrash(f, begin, gen, log, cs, o, s, m, ops);
      assert LosesLog(f, ops, begin, gen, h, img);
    }
    if img :| LosesLog(f, ops, begin, gen, h, img) {
      var m := CrashShows(f, begin, gen, log, cs, off, o, s, ops, h, img);
      assert MisleadingMix(o, s, off, m);
    }
  }

  lemma CrashShows(f: seq<byte>, begin: nat, gen: seq<byte>, log: seq<seq<byte>>, cs: seq<seq<byte>>, off: nat,
                   o: seq<byte>, s: seq<byte>, ops: seq<Op>, h: nat, img: seq<byte>) returns (m: seq<byte>)
    requires WellFormed(f, begin, gen, log) && |log| < CHUNK_UNIT && ops == OpsFor(begin, log, cs, false)
    requires off == Offset(log, |log|) && h == begin + |log| + 1 && LosesLog(f, ops, begin, gen, h, img)
    requires |o| == 8 && Has(f, SlotAt(|log|), o) && s == ToLE(off + |Concat(cs)|, 8)
    ensures MisleadingMix(o, s, off, m)
  {
    OffsetGrows(log, 0, |log|);
    m := CrashSlot(f, begin, log, cs, off, o, s, ToLE(h, 4), ops, img);
    CrashMisleads(f, HeadsAt(begin + |log|), begin, gen, Info(begin, gen), Slots(log), log, off, img, m, h);
  }

  lemma CrashSlot(f: seq<byte>, begin: nat, log: seq<seq<byte>>, cs: seq<seq<byte>>, off: nat, o: seq<byte>,
                  s: seq<byte>,
                  h: seq<byte>, ops: seq<Op>, img: seq<byte>) returns (m: seq<byte>)
    requires |log| < CHUNK_UNIT && off == Offset(log, |log|) && HEADER_SIZE <= off <= |f| && |o| == 8
    requires ops == OpsFor(begin, log, cs, false) && KeptOrLost(Exec(Disk(f, []), ops), img) && Has(f, SlotAt(|log|), o)
    requires s == ToLE(off + |Concat(cs)|, 8) && h == ToLE(begin + |log| + 1, 4)
    ensures MixOf(m, o, s) && SameRange(f, img, 12, SlotAt(|log|)) && SameRange(f, img, HEADER_SIZE, off)
    ensures |f| <= |img| < I64 && Has(img, SlotAt(|log|), m)
  {
    UnsyncedPending(f, begin, log, cs, s, h, ops);
    m := img[SlotAt(|log|)..SlotAt(|log|) + 8];
    CrashMixes(f, |log|, cs, off, o, s, h, ops, img, m);
  }

  /** A slot that has never been written is one. */
  lemma BlankMisleads(o: seq<byte>, s: seq<byte>, off: nat)
    requires o == ToLE(0, 8) && |s| == 8 && off > 0
    ensures MixOf(o, o, s) && Misleads(o, off)
  {
    RoundTrip64(0);
  }

  // ---- a file that has just been created ----

  /** The meta data of a new file. */
  function MetaBytes(h: seq<byte>, info: seq<byte>): seq<byte> {
    h + h + h + info + Zeros(META_SIZE - 52)
  }

  /** What creating a pile writes: it extends the file to the header size and fills in the meta data; nothing is
      synced. */
  function NewOps(begin: nat, gen: seq<byte>): seq<Op> {
    [Write(0, Zeros(HEADER_SIZE)), Write(0, MetaBytes(ToLE(begin, 4), Info(begin, gen)))]
  }

  lemma MetaHas(g: seq<byte>, h: seq<byte>, info: seq<byte>)
    requires |h| == 4 && |info| == 40 && |g| >= HEADER_SIZE && Has(g, 0, MetaBytes(h, info))
    ensures Has(g, 0, h) && Has(g, 4, h) && Has(g, 8, h) && Has(g, 12, info)
  {
    var m := MetaBytes(h, info);
    assert m[0..4] == h && m[4..8] == h && m[8..12] == h && m[12..52] == info;
    SubSlice(g, 0, |m|, 0, 4);
    SubSlice(g, 0, |m|, 4, 8);
    SubSlice(g, 0, |m|, 8, 12);
    SubSlice(g, 0, |m|, 12, 52);
  }

  lemma NewFile(h: seq<byte>, info: seq<byte>)
    requires |h| == 4 && |info| == 40
    ensures var f := Run([], [Write(0, Zeros(HEADER_SIZE)), Write(0, MetaBytes(h, info))]);
      LaidOut(f, Heads(h, h, h), info, [], [])
  {
    var z, m := Zeros(HEADER_SIZE), MetaBytes(h, info);
    assert [Write(0, z), Write(0, m)] == [Write(0, z)] + [Write(0, m)];
    RunOne([], [Write(0, z)], Write(0, m));
    RunSingle([], Write(0, z));
    assert Put([], 0, z) == z;
    PutHas(z, 0, m);
    MetaHas(Put(z, 0, m), h, info);
  }

  lemma NewWellFormed(begin: nat, gen: seq<byte>)
    requires ValidInfo(begin, gen)
    ensures WellFormed(Run([], NewOps(begin, gen)), begin, gen, [])
  {
    InfoParts(begin, gen);
    NewFile(ToLE(begin, 4), Info(begin, gen));
  }

  /** Until the first append has synced, nothing at all need be on the disk. */
  lemma NewLost(begin: nat, gen: seq<byte>, off: nat, cs: seq<seq<byte>>, s: seq<byte>, h: seq<byte>, ops: seq<Op>)
    requires ops <= NewOps(begin, gen) + BodyOps(off, 0, cs, s, h)
    ensures KeptOrLost(Exec(Disk([], []), ops), []) && LoadPile([]) == Refused(ReadError)
  {
    BodyAreWrites(off, 0, cs, s, h);
    assert forall op :: op in ops ==> op in NewOps(begin, gen) + BodyOps(off, 0, cs, s, h);
    ExecWrites(Disk([], []), ops);
  }

  /** From the first sync on, the creation makes no difference. */
  lemma {:induction false} NewSynced(f: seq<byte>, new_: seq<Op>, body: seq<Op>, more: seq<Op>)
    requires forall op :: op in new_ + body ==> op.Write?
    ensures Exec(Disk(f, []), new_ + body + [Sync] + more) == Exec(Disk(Run(f, new_), []), body + [Sync] + more)
  {
    var g := Run(f, new_);
    ExecWrites(Disk(f, []), new_ + body);
    assert [] + (new_ + body) == new_ + body;
    ExecSnoc(Disk(f, []), new_ + body, Sync);
    RunSplit(f, new_, body);
    assert forall op :: op in body ==> op in new_ + body;
    ExecWrites(Disk(g, []), body);
    assert [] + body == body;
    ExecSnoc(Disk(g, []), body, Sync);
    ExecSplit(Disk(f, []), new_ + body + [Sync], more);
    ExecSplit(Disk(g, []), body + [Sync], more);
  }

  /** The cut `k` lies before the first sync of the first append to a new pile. */
  predicate BeforeFirstSync(cs: seq<seq<byte>>, k: nat) { k <= |cs| + 4 }

  lemma EarlyPrefix(new_: seq<Op>, body: seq<Op>, h: seq<byte>, first: seq<Op>, k: nat)
    requires first == body + CheckOps(h, true) && k <= |new_| + |body|
    ensures (new_ + first)[..k] <= new_ + body
  {
  }

  lemma LatePrefix(new_: seq<Op>, body: seq<Op>, h: seq<byte>, first: seq<Op>, k: nat, j: nat, more: seq<Op>)
    requires first == body + CheckOps(h, true) && k == |new_| + j && |body| < j <= |first|
    requires more == first[|body| + 1..j]
    ensures (new_ + first)[..k] == new_ + body + [Sync] + more && first[..j] == body + [Sync] + more
  {
    assert first[|body|] == Sync;
    assert first[..j] == body + [Sync] + more;
    assert (new_ + first)[..k] == new_ + first[..j];
  }

  function NewAndFirst(begin: nat, gen: seq<byte>, cs: seq<seq<byte>>): seq<Op> {
    NewOps(begin, gen) + OpsFor(begin, [], cs, true)
  }

  lemma NewRefused(begin: nat, gen: seq<byte>, cs: seq<seq<byte>>, k: nat)
    requires BeforeFirstSync(cs, k)
    ensures k <= |NewAndFirst(begin, gen, cs)|
    ensures KeptOrLost(Exec(Disk([], []), NewAndFirst(begin, gen, cs)[..k]), []) && LoadPile([]).Refused?
  {
    var s, h := ToLE(HEADER_SIZE + |Concat(cs)|, 8), ToLE(begin + 1, 4);
    var body := BodyOps(HEADER_SIZE, 0, cs, s, h);
    DataWritesCount(HEADER_SIZE, cs);
    EarlyPrefix(NewOps(begin, gen), body, h, OpsFor(begin, [], cs, true), k);
    NewLost(begin, gen, HEADER_SIZE, cs, s, h, NewAndFirst(begin, gen, cs)[..k]);
  }

  /** Cut off after the first sync, creating and appending is the same as appending to what was created. */
  lemma CutExec(f: seq<byte>, new_: seq<Op>, body: seq<Op>, h: seq<byte>, first: seq<Op>, k: nat, j: nat)
    requires (forall op :: op in new_ + body ==> op.Write?) && first == body + CheckOps(h, true)
    requires k == |new_| + j && |body| < j <= |body| + 5
    ensures |first| == |body| + 5
    ensures Exec(Disk(f, []), (new_ + first)[..k]) == Exec(Disk(Run(f, new_), []), first[..j])
  {
    var more := first[|body| + 1..j];
    LatePrefix(new_, body, h, first, k, j, more);
    NewSynced(f, new_, body, more);
  }

  /** The operations of the first append. */
  lemma FirstOps(begin: nat, cs: seq<seq<byte>>, first: seq<Op>) returns (body: seq<Op>, h: seq<byte>)
    requires first == OpsFor(begin, [], cs, true)
    ensures first == body + CheckOps(h, true) && |body| == |cs| + 2 && forall op :: op in body ==> op.Write?
  {
    var s := ToLE(HEADER_SIZE + |Concat(cs)|, 8);
    h := ToLE(begin + 1, 4);
    body := BodyOps(HEADER_SIZE, 0, cs, s, h);
    DataWritesCount(HEADER_SIZE, cs);
    BodyAreWrites(HEADER_SIZE, 0, cs, s, h);
  }

  /** Appending to the file as it was created: every crash leaves a file that loads. */
  lemma FirstLoads(f: seq<byte>, begin: nat, gen: seq<byte>, cs: seq<seq<byte>>, ops: seq<Op>, k: nat, d: Disk,
                   img: seq<byte>)
    requires WellFormed(f, begin, gen, []) && HEADER_SIZE + |Concat(cs)| < I64
    requires ops == OpsFor(begin, [], cs, true) && k <= |ops| && d == Exec(Disk(f, []), ops[..k]) && Torn(d, img)
    ensures LoadPile(img).Loaded?
  {
    var _ := CrashSafe(f, begin, gen, [], cs, k, img);
  }

  lemma NewLoads(f: seq<byte>, begin: nat, gen: seq<byte>, cs: seq<seq<byte>>, ops: seq<Op>, k: nat, d: Disk,
                 img: seq<byte>)
    requires ValidInfo(begin, gen) && f == Run([], NewOps(begin, gen)) && HEADER_SIZE + |Concat(cs)| < I64
    requires ops == OpsFor(begin, [], cs, true) && k <= |ops| && d == Exec(Disk(f, []), ops[..k]) && Torn(d, img)
    ensures LoadPile(img).Loaded?
  {
    NewWellFormed(begin, gen);
    FirstLoads(f, begin, gen, cs, ops, k, d, img);
  }

  /** A crash that leaves a file that is refused. */
  ghost predicate LeavesRefused(d: Disk, img: seq<byte>) { KeptOrLost(d, img) && LoadPile(img).Refused? }

  /** A new pile and its first append, cut off after `k` operations: some crash leaves a file that is refused
      if and only if the cut lies before the first sync. */
  lemma NewPileCrash(begin: nat, gen: seq<byte>, cs: seq<seq<byte>>, k: nat)
    requires ValidInfo(begin, gen) && HEADER_SIZE + |Concat(cs)| < I64 && k <= |NewAndFirst(begin, gen, cs)|
    ensures (exists img :: LeavesRefused(Exec(Disk([], []), NewAndFirst(begin, gen, cs)[..k]), img))
       <==> BeforeFirstSync(cs, k)
  {
    OpsCount(begin, [], cs);
    if BeforeFirstSync(cs, k) {
      NewRefused(begin, gen, cs, k);
      assert LeavesRefused(Exec(Disk([], []), NewAndFirst(begin, gen, cs)[..k]), []);
    } else {
      var new_, first := NewOps(begin, gen), OpsFor(begin, [], cs, true);
      var body, h := FirstOps(begin, cs, first);
      var j := k - 2;
      CutExec([], new_, body, h, first, k, j);
      var g, d := Run([], new_), Exec(Disk([], []), (new_ + first)[..k]);
      forall img | KeptOrLost(d, img) ensures LoadPile(img).Loaded? {
        KeptIsTorn(d, img);
        NewLoads(g, begin, gen, cs, first, j, d, img);
      }
    }
  }
}
