/** Crashes while a pile is loaded: the repair of the head heights writes too. */
module PileReload {
  import opened Bytes
  import opened PileFormat
  import opened PileCrash

  /** The repair writes both checks before it syncs. */
  predicate WritesBoth(w: Heads) {
    w.a != w.b && FromLE(w.head) == (FromLE(w.b) + 1) % U32
  }

  /** Wherever loading is cut off, and whichever unsynced bytes are kept, the file loads as before the next time. */
  ghost predicate SafeToLoad(f: seq<byte>, ops: seq<Op>, begin: nat, gen: seq<byte>, log: seq<seq<byte>>) {
    forall k, img :: 0 <= k <= |ops| && KeptOrLost(Exec(Disk(f, []), ops[..k]), img) ==> LoadsAs(img, begin, gen, log)
  }

  /** The repair writes one height: the head, when the checks are right, or the second check, when the others are. */
  predicate OneHeight(w: Heads, op: Op, h: nat) {
    || (op == Write(0, ToLE(h, 4)) && FromLE(w.a) == FromLE(w.b) == h)
    || (op == Write(8, ToLE(h, 4)) && FromLE(w.head) == FromLE(w.a) == h)
  }

  // ---- one height at a time is safe ----

  lemma Unchanged(g: seq<byte>, img: seq<byte>, w: Heads, info: seq<byte>, begin: nat, log: seq<seq<byte>>)
    requires Loadable(g, w, info, begin, log) && Torn(Disk(g, []), img)
    ensures CanLoad(img, info, begin, log)
  {
    TornSame(Disk(g, []), img, 0, |g|);
    OffsetGrows(log, 0, |log|);
    LaidOutFrame(g, img, w, info, Slots(log), log);
    HasFrame(g, img, 0, |g|, 0, w.head);
    assert Loadable(img, w, info, begin, log);
  }

  lemma HeadTorn(f: seq<byte>, img: seq<byte>, w: Heads, info: seq<byte>, begin: nat, log: seq<seq<byte>>, v: seq<byte>)
    requires Loadable(f, w, info, begin, log) && FromLE(w.a) == FromLE(w.b) == begin + |log|
    requires |v| == 4 && Torn(Disk(f, [Write(0, v)]), img)
    ensures CanLoad(img, info, begin, log)
  {
    TornSame(Disk(f, [Write(0, v)]), img, 4, |f|);
    OffsetGrows(log, 0, |log|);
    LaidOutFrame(f, img, w, info, Slots(log), log);
    assert Loadable(img, w.(head := img[0..4]), info, begin, log);
  }

  lemma SecondTorn(f: seq<byte>, img: seq<byte>, w: Heads, info: seq<byte>, begin: nat, log: seq<seq<byte>>,
                   v: seq<byte>)
    requires Loadable(f, w, info, begin, log) && FromLE(w.head) == FromLE(w.a) == begin + |log|
    requires |v| == 4 && Torn(Disk(f, [Write(8, v)]), img)
    ensures CanLoad(img, info, begin, log)
  {
    TornSame(Disk(f, [Write(8, v)]), img, 0, 8);
    TornSame(Disk(f, [Write(8, v)]), img, 12, |f|);
    TornSecond(f, img, w, info, begin, log);
  }

  lemma OneWrite(f: seq<byte>, op: Op, ops: seq<Op>, k: nat)
    requires op.Write? && ops == [op] && k <= 2
    ensures Exec(Disk(f, []), (ops + [Sync])[..k]) ==
      if k == 0 then Disk(f, []) else if k == 1 then Disk(f, ops) else Disk(Put(f, op.at, op.bytes), [])
  {
    var all, none := ops + [Sync], [];
    assert k == 0 ==> all[..k] == none;
    assert k == 1 ==> all[..k] == ops;
    assert k == 2 ==> all[..k] == all;
    ExecWrites(Disk(f, []), ops);
    assert none + ops == ops;
    ExecSnoc(Disk(f, []), ops, Sync);
    RunSingle(f, op);
  }

  lemma RepairedLoads(f: seq<byte>, w: Heads, info: seq<byte>, begin: nat, log: seq<seq<byte>>, at: nat,
                      v: seq<byte>, g: seq<byte>)
    requires Loadable(f, w, info, begin, log) && v == ToLE(begin + |log|, 4) && g == Put(f, at, v)
    requires (at == 0 && FromLE(w.a) == FromLE(w.b) == begin + |log|)
          || (at == 8 && FromLE(w.head) == FromLE(w.a) == begin + |log|)
    ensures Loadable(g, if at == 0 then w.(head := v) else w.(b := v), info, begin, log)
  {
    PutHead(f, w, info, Slots(log), log, v);
    RoundTrip32(begin + |log|);
  }

  lemma OneHeightSafe(f: seq<byte>, w: Heads, begin: nat, gen: seq<byte>, log: seq<seq<byte>>, op: Op, k: nat,
                      img: seq<byte>)
    requires ValidInfo(begin, gen) && Loadable(f, w, Info(begin, gen), begin, log) && k <= 2
    requires OneHeight(w, op, begin + |log|)
    requires Torn(Exec(Disk(f, []), ([op] + [Sync])[..k]), img)
    ensures LoadsAs(img, begin, gen, log)
  {
    var info, g := Info(begin, gen), Put(f, op.at, op.bytes);
    OneWrite(f, op, [op], k);
    if k == 0 {
      Unchanged(f, img, w, info, begin, log);
    } else if k == 1 {
      if op.at == 0 {
        HeadTorn(f, img, w, info, begin, log, op.bytes);
      } else {
        SecondTorn(f, img, w, info, begin, log, op.bytes);
      }
    } else {
      RepairedLoads(f, w, info, begin, log, op.at, op.bytes, g);
      Unchanged(g, img, if op.at == 0 then w.(head := op.bytes) else w.(b := op.bytes), info, begin, log);
    }
    Loads(img, begin, gen, log);
  }

  // ---- both checks at once ----

  /** Before the sync all writes so far are pending. */
  lemma StillPending(f: seq<byte>, ops: seq<Op>, k: nat)
    requires k <= |ops| && forall op :: op in ops ==> op.Write?
    ensures Exec(Disk(f, []), (ops + [Sync])[..k]) == Disk(f, ops[..k])
  {
    var now := ops[..k];
    assert (ops + [Sync])[..k] == now && forall op :: op in now ==> op in ops;
    ExecWrites(Disk(f, []), now);
    assert [] + now == now;
  }

  lemma BothSynced(f: seq<byte>, a: Op, b: Op, ops: seq<Op>)
    requires a.Write? && b.Write? && ops == [a] + [b]
    ensures Exec(Disk(f, []), ops + [Sync]) == Disk(Put(Put(f, a.at, a.bytes), b.at, b.bytes), [])
  {
    StillPending(f, ops, 2);
    assert (ops + [Sync])[..2] == ops && ops[..2] == ops;
    ExecSnoc(Disk(f, []), ops, Sync);
    RunOne(f, [a], b);
    RunSingle(f, a);
  }

  /** Writing what is there already tears nothing. */
  lemma SameWrite(f: seq<byte>, at: nat, v: seq<byte>, more: seq<Op>, img: seq<byte>)
    requires KeptOrLost(Disk(f, [Write(at, v)] + more), img) && Has(f, at, v)
    ensures Torn(Disk(f, more), img)
  {
    var ops := [Write(at, v)] + more;
    forall i | 0 <= i < |f| && (forall op :: op in more ==> !Covers(op, i)) ensures img[i] == f[i] {
      assert ByteKept(Disk(f, ops), img, i);
      assert forall op :: op in ops ==> op == ops[0] || op in more;
      assert Covers(ops[0], i) ==> v[i - at] == f[at..at + |v|][i - at] == f[i];
    }
  }

  /** When the first check is right already only the second can be torn. */
  lemma BothSafe(f: seq<byte>, w: Heads, begin: nat, gen: seq<byte>, log: seq<seq<byte>>, v: seq<byte>, k: nat,
                 ops: seq<Op>, img: seq<byte>)
    requires ValidInfo(begin, gen) && Loadable(f, w, Info(begin, gen), begin, log) && w.a == w.head == v
    requires FromLE(v) == begin + |log| && ops == [Write(4, v), Write(8, v)] && k <= 3
    requires KeptOrLost(Exec(Disk(f, []), (ops + [Sync])[..k]), img)
    ensures LoadsAs(img, begin, gen, log)
  {
    var info, a, b := Info(begin, gen), Write(4, v), Write(8, v);
    if k < 3 { StillPending(f, ops, k); }
    if k == 0 {
      assert ops[..k] == [];
      KeptIsTorn(Disk(f, []), img);
      Unchanged(f, img, w, info, begin, log);
    } else if k == 1 {
      assert ops[..k] == [a] + [];
      SameWrite(f, 4, v, [], img);
      Unchanged(f, img, w, info, begin, log);
    } else if k == 2 {
      assert ops[..k] == [a] + [b];
      SameWrite(f, 4, v, [b], img);
      SecondTorn(f, img, w, info, begin, log, v);
    } else {
      assert (ops + [Sync])[..k] == ops + [Sync] && ops == [a] + [b];
      BothSynced(f, a, b, ops);
      BothWritten(f, w, info, begin, log, v, img);
    }
    Loads(img, begin, gen, log);
  }

  lemma BothWritten(f: seq<byte>, w: Heads, info: seq<byte>, begin: nat, log: seq<seq<byte>>, v: seq<byte>,
                    img: seq<byte>)
    requires Loadable(f, w, info, begin, log) && w.head == v && |v| == 4 && FromLE(v) == begin + |log|
    requires KeptOrLost(Disk(Put(Put(f, 4, v), 8, v), []), img)
    ensures CanLoad(img, info, begin, log)
  {
    var g := Put(Put(f, 4, v), 8, v);
    PutHead(f, w, info, Slots(log), log, v);
    PutHead(Put(f, 4, v), w.(a := v), info, Slots(log), log, v);
    KeptIsTorn(Disk(g, []), img);
    Unchanged(g, img, w.(a := v, b := v), info, begin, log);
  }

  lemma BrokenRefused(img: seq<byte>, head: nat, a: nat, b: nat, begin: nat, gen: seq<byte>)
    requires begin % CHUNK_UNIT == 0 && begin + CHUNK_UNIT < U32 && Repair(head, a, b) == Broken
    ensures LoadWith(img, head, a, b, begin, begin + CHUNK_UNIT, gen) == Refused(HeightCrashed)
  {
  }

  lemma LoadIs(img: seq<byte>, w: Heads, info: seq<byte>, slots: seq<seq<byte>>, log: seq<seq<byte>>, begin: nat,
               gen: seq<byte>,
               head: nat, a: nat, b: nat, r: LoadResult)
    requires LaidOut(img, w, info, slots, log) && ValidInfo(begin, gen) && info == Info(begin, gen)
    requires head == FromLE(w.head) && a == FromLE(w.a) && b == FromLE(w.b)
    requires LoadWith(img, head, a, b, begin, begin + CHUNK_UNIT, gen) == r
    ensures LoadPile(img) == r
  {
    LoadReads(img, w, info, slots, begin, gen, log);
  }

  lemma RefusesHeads(img: seq<byte>, w: Heads, begin: nat, gen: seq<byte>, log: seq<seq<byte>>, head: nat, a: nat,
                     b: nat, r: LoadResult)
    requires ValidInfo(begin, gen) && LaidOut(img, w, Info(begin, gen), Slots(log), log) && r == Refused(HeightCrashed)
    requires head == FromLE(w.head) && a == FromLE(w.a) && b == FromLE(w.b) && Repair(head, a, b) == Broken
    ensures LoadPile(img) == r
  {
    BrokenRefused(img, head, a, b, begin, gen);
    LoadIs(img, w, Info(begin, gen), Slots(log), log, begin, gen, head, a, b, r);
  }

  /** It is enough that of the two writes only the second reaches the disk, if the first check was torn before. */
  lemma OnlySecondKept(f: seq<byte>, w: Heads, begin: nat, gen: seq<byte>, log: seq<seq<byte>>, v: seq<byte>,
                       img: seq<byte>)
    requires ValidInfo(begin, gen) && Loadable(f, w, Info(begin, gen), begin, log) && WritesBoth(w) && v == w.head
    requires img == Put(f, 8, v)
    ensures KeptOrLost(Disk(f, [Write(4, v), Write(8, v)]), img)
    ensures if w.a == w.head then LoadsAs(img, begin, gen, log) else LoadPile(img) == Refused(HeightCrashed)
  {
    PutHead(f, w, Info(begin, gen), Slots(log), log, v);
    SecondKept(f, v);
    if w.a == w.head {
      SecondKeptLoads(img, w.(b := v), begin, gen, log);
    } else {
      SecondKeptBreaks(img, w.(b := v), begin, gen, log);
    }
  }

  lemma SecondKeptLoads(img: seq<byte>, u: Heads, begin: nat, gen: seq<byte>, log: seq<seq<byte>>)
    requires ValidInfo(begin, gen) && LaidOut(img, u, Info(begin, gen), Slots(log), log) && begin + |log| < U32
    requires u.head == u.a == u.b && FromLE(u.head) == begin + |log|
    ensures LoadsAs(img, begin, gen, log)
  {
    assert Loadable(img, u, Info(begin, gen), begin, log);
    Loads(img, begin, gen, log);
  }

  lemma SecondKeptBreaks(img: seq<byte>, u: Heads, begin: nat, gen: seq<byte>, log: seq<seq<byte>>)
    requires ValidInfo(begin, gen) && LaidOut(img, u, Info(begin, gen), Slots(log), log) && u.b == u.head
    requires u.a != u.head
    ensures LoadPile(img) == Refused(HeightCrashed)
  {
    RoundTripBytes(u.a);
    RoundTripBytes(u.head);
    FromLEBound(u.head);
    Widths();
    RefusesHeads(img, u, begin, gen, log, FromLE(u.head), FromLE(u.a), FromLE(u.b), Refused(HeightCrashed));
  }

  lemma SecondKept(f: seq<byte>, v: seq<byte>)
    requires HEADER_SIZE <= |f| < I64 && |v| == 4
    ensures KeptOrLost(Disk(f, [Write(4, v), Write(8, v)]), Put(f, 8, v))
  {
    PutSpec(f, 8, v);
    var ops, img := [Write(4, v), Write(8, v)], Put(f, 8, v);
    forall i | 0 <= i < |img| ensures ByteKept(Disk(f, ops), img, i) {
      assert ops[1] in ops;
      if 8 <= i < 12 { assert Covers(ops[1], i) && ops[1].bytes[i - 8] == img[i]; }
    }
  }

  lemma UnsafeReload(f: seq<byte>, w: Heads, begin: nat, gen: seq<byte>, log: seq<seq<byte>>, v: seq<byte>,
                     both: seq<Op>, ops: seq<Op>)
    requires ValidInfo(begin, gen) && Loadable(f, w, Info(begin, gen), begin, log) && WritesBoth(w)
    requires v == w.head != w.a && both == [Write(4, v), Write(8, v)] && ops == both + [Sync]
    ensures !SafeToLoad(f, ops, begin, gen, log)
  {
    var img := Put(f, 8, v);
    OnlySecondKept(f, w, begin, gen, log, v, img);
    StillPending(f, both, 2);
    assert both[..2] == both;
    assert KeptOrLost(Exec(Disk(f, []), ops[..2]), img) && !LoadsAs(img, begin, gen, log);
  }

  lemma SafeReload(f: seq<byte>, w: Heads, begin: nat, gen: seq<byte>, log: seq<seq<byte>>, op: Op, ops: seq<Op>)
    requires ValidInfo(begin, gen) && Loadable(f, w, Info(begin, gen), begin, log)
    requires OneHeight(w, op, begin + |log|)
    requires ops == [op] + [Sync]
    ensures SafeToLoad(f, ops, begin, gen, log)
  {
    forall k, img | 0 <= k <= 2 && KeptOrLost(Exec(Disk(f, []), ops[..k]), img) ensures LoadsAs(img, begin, gen, log) {
      KeptIsTorn(Exec(Disk(f, []), ops[..k]), img);
      OneHeightSafe(f, w, begin, gen, log, op, k, img);
    }
  }

  lemma BothReload(f: seq<byte>, w: Heads, begin: nat, gen: seq<byte>, log: seq<seq<byte>>, v: seq<byte>,
                   both: seq<Op>, ops: seq<Op>)
    requires ValidInfo(begin, gen) && Loadable(f, w, Info(begin, gen), begin, log) && w.a == w.head == v
    requires FromLE(v) == begin + |log| && both == [Write(4, v), Write(8, v)] && ops == both + [Sync]
    ensures SafeToLoad(f, ops, begin, gen, log)
  {
    forall k, img | 0 <= k <= 3 && KeptOrLost(Exec(Disk(f, []), ops[..k]), img) ensures LoadsAs(img, begin, gen, log) {
      BothSafe(f, w, begin, gen, log, v, k, both, img);
    }
  }

  lemma IdleReload(f: seq<byte>, w: Heads, begin: nat, gen: seq<byte>, log: seq<seq<byte>>, ops: seq<Op>)
    requires ValidInfo(begin, gen) && Loadable(f, w, Info(begin, gen), begin, log) && ops == []
    ensures SafeToLoad(f, ops, begin, gen, log)
  {
    forall k, img | 0 <= k <= 0 && KeptOrLost(Exec(Disk(f, []), ops[..k]), img) ensures LoadsAs(img, begin, gen, log) {
      assert ops[..k] == [];
      KeptIsTorn(Disk(f, []), img);
      Unchanged(f, img, w, Info(begin, gen), begin, log);
      Loads(img, begin, gen, log);
    }
  }

  /** What the repair writes, by the two cases. */
  lemma RepairShape(f: seq<byte>, w: Heads, info: seq<byte>, begin: nat, log: seq<seq<byte>>, h: nat, v: seq<byte>,
                    ops: seq<Op>,
                    head: nat, a: nat, b: nat) returns (op: Op)
    requires Loadable(f, w, info, begin, log) && h == begin + |log| && v == ToLE(h, 4)
    requires head == FromLE(w.head) && a == FromLE(w.a) && b == FromLE(w.b) && Repair(head, a, b) == Repaired(ops, h)
    ensures WritesBoth(w) ==> ops == [Write(4, v), Write(8, v)] + [Sync]
    ensures !WritesBoth(w) ==> ops == [] || (ops == [op] + [Sync] && OneHeight(w, op, h))
  {
    op := Write(if a == b then 0 else 8, v);
    HeadsMean(w);
    RepairCases(head, a, b, h);
  }

  /** A crash while loading is harmless unless the repair writes both checks and the first of them is not the head yet:
      the checks differ, the head is one above the second, and it is not the first. */
  lemma ReloadIff(f: seq<byte>, w: Heads, begin: nat, gen: seq<byte>, log: seq<seq<byte>>, ops: seq<Op>, head: nat,
                  a: nat, b: nat, h: nat)
    requires ValidInfo(begin, gen) && Loadable(f, w, Info(begin, gen), begin, log) && h == begin + |log|
    requires head == FromLE(w.head) && a == FromLE(w.a) && b == FromLE(w.b) && Repair(head, a, b) == Repaired(ops, h)
    ensures SafeToLoad(f, ops, begin, gen, log) <==> !(WritesBoth(w) && w.a != w.head)
  {
    var v := ToLE(h, 4);
    var op := RepairShape(f, w, Info(begin, gen), begin, log, h, v, ops, head, a, b);
    if WritesBoth(w) {
      HeadWins(w, ops, head, a, b, h, v);
      if w.a == v {
        BothReload(f, w, begin, gen, log, v, [Write(4, v), Write(8, v)], ops);
      } else {
        UnsafeReload(f, w, begin, gen, log, v, [Write(4, v), Write(8, v)], ops);
      }
    } else if ops == [] {
      IdleReload(f, w, begin, gen, log, ops);
    } else {
      SafeReload(f, w, begin, gen, log, op, ops);
    }
  }

  lemma HeadWins(w: Heads, ops: seq<Op>, head: nat, a: nat, b: nat, h: nat, v: seq<byte>)
    requires |w.head| == |w.a| == |w.b| == 4 && WritesBoth(w) && v == ToLE(h, 4)
    requires head == FromLE(w.head) && a == FromLE(w.a) && b == FromLE(w.b) && Repair(head, a, b) == Repaired(ops, h)
    ensures v == w.head && FromLE(v) == h
  {
    HeadsMean(w);
    RoundTripBytes(w.head);
  }

  lemma HeadsMean(w: Heads)
    requires |w.head| == |w.a| == |w.b| == 4
    ensures FromLE(w.head) < U32 && FromLE(w.a) < U32 && FromLE(w.b) < U32
    ensures (w.a == w.b <==> FromLE(w.a) == FromLE(w.b))
  {
    FromLEBound(w.head);
    FromLEBound(w.a);
    FromLEBound(w.b);
    Widths();
    RoundTripBytes(w.a);
    RoundTripBytes(w.b);
  }
}
