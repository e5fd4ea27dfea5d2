/** Crashes over whole runs of a pile: after any number of appends, without syncs, and right after
    the file was created. */
module PileRuns {
  import opened Bytes
  import opened PileFormat
  import opened PileCrash

  // ---- completed appends ----

  lemma RunSync(f: seq<byte>, ops: seq<Op>)
    ensures Run(f, ops + [Sync]) == Run(f, ops)
  {
    assert (ops + [Sync])[..|ops|] == ops;
  }

  lemma RunChecks(f: seq<byte>, body: seq<Op>, h: seq<byte>, sync: bool)
    ensures Run(f, body + CheckOps(h, sync)) == Put(Put(Run(f, body), 4, h), 8, h)
  {
    var a, b := Write(4, h), Write(8, h);
    if sync {
      assert body + CheckOps(h, true) == body + [Sync] + [a] + [Sync] + [b] + [Sync];
      RunSync(f, body);
      RunOne(f, body + [Sync], a);
      RunSync(f, body + [Sync] + [a]);
      RunOne(f, body + [Sync] + [a] + [Sync], b);
      RunSync(f, body + [Sync] + [a] + [Sync] + [b]);
    } else {
      assert body + CheckOps(h, false) == body + [a] + [b];
      RunOne(f, body, a);
      RunOne(f, body + [a], b);
    }
  }

  lemma AppendLays(f: seq<byte>, w: Heads, info: seq<byte>, log: seq<seq<byte>>, cs: seq<seq<byte>>,
                   s: seq<byte>, h: seq<byte>, sync: bool)
    requires LaidOut(f, w, info, Slots(log), log) && |log| < CHUNK_UNIT && |h| == 4
    requires Offset(log, |log|) + |Concat(cs)| < I64 && s == ToLE(Offset(log, |log|) + |Concat(cs)|, 8)
    ensures LaidOut(Run(f, BodyOps(Offset(log, |log|), |log|, cs, s, h) + CheckOps(h, sync)), Heads(h, h, h), info,
                    Slots(log + [Concat(cs)]), log + [Concat(cs)])
  {
    var body := BodyOps(Offset(log, |log|), |log|, cs, s, h);
    var all := log + [Concat(cs)];
    BodyDone(f, w, info, log, cs, s, h, Run(f, body), w.(head := h), Concat(cs));
    ChecksRun(Run(f, body), w.(head := h), info, Slots(all), all, h);
    RunChecks(f, body, h, sync);
  }

  /** A completed append, synced or not, leaves a well-formed pile with one more record. */
  lemma AppendExtends(f: seq<byte>, begin: nat, gen: seq<byte>, log: seq<seq<byte>>, cs: seq<seq<byte>>, sync: bool)
    requires WellFormed(f, begin, gen, log) && |log| < CHUNK_UNIT
    requires Offset(log, |log|) + |Concat(cs)| < I64
    ensures WellFormed(Run(f, OpsFor(begin, log, cs, sync)), begin, gen, log + [Concat(cs)])
  {
    var s, h := ToLE(Offset(log, |log|) + |Concat(cs)|, 8), ToLE(begin + |log| + 1, 4);
    AppendLays(f, HeadsAt(begin + |log|), Info(begin, gen), log, cs, s, h, sync);
    assert OpsFor(begin, log, cs, sync) == BodyOps(Offset(log, |log|), |log|, cs, s, h) + CheckOps(h, sync);
  }

  /** A synced append leaves nothing pending. */
  lemma AppendSyncs(f: seq<byte>, begin: nat, log: seq<seq<byte>>, cs: seq<seq<byte>>)
    ensures Exec(Disk(f, []), OpsFor(begin, log, cs, true)) == Disk(Run(f, OpsFor(begin, log, cs, true)), [])
  {
    var s, h := ToLE(Offset(log, |log|) + |Concat(cs)|, 8), ToLE(begin + |log| + 1, 4);
    var body := BodyOps(Offset(log, |log|), |log|, cs, s, h);
    BodyAreWrites(Offset(log, |log|), |log|, cs, s, h);
    PrefixCases(body, h, |body| + 5);
    assert (body + CheckOps(h, true))[..|body| + 5] == body + CheckOps(h, true);
    CheckExec(f, body, h);
    RunChecks(f, body, h, true);
  }

  // ---- any number of synced appends ----

  type Log = seq<seq<byte>>
  type Parts = seq<seq<byte>>

  function Appended(log: Log, rs: seq<Parts>): (all: Log)
    ensures |all| == |log| + |rs|
  {
    if rs == [] then log else Appended(log, rs[..|rs| - 1]) + [Concat(rs[|rs| - 1])]
  }

  /** A log that is written by appending: what the file is for it, when there is room for it, what an append
      does, what a crash may leave and what can be recovered from that. */
  datatype Scheme = Scheme(
    file: (seq<byte>, Log) -> bool,
    fits: Log -> bool,
    ops: (Log, Parts) -> seq<Op>,
    torn: Disk -> bool,
    good: Log -> bool)

  ghost predicate Completes(c: Scheme, f: seq<byte>, log: Log, cs: Parts) {
    var d := Exec(Disk(f, []), c.ops(log, cs));
    d.pending == [] && c.file(d.synced, log + [Concat(cs)])
  }

  ghost predicate Survives(c: Scheme, f: seq<byte>, log: Log, cs: Parts, k: nat)
    requires k <= |c.ops(log, cs)|
  {
    c.torn(Exec(Disk(f, []), c.ops(log, cs)[..k])) ==>
      if k == |c.ops(log, cs)| then c.good(log + [Concat(cs)]) else c.good(log) || c.good(log + [Concat(cs)])
  }

  /** Each single append is crash safe. */
  ghost predicate Safe(c: Scheme) {
    && (forall log, x :: c.fits(log + [x]) ==> c.fits(log))
    && (forall f, log :: c.file(f, log) && c.torn(Disk(f, [])) ==> c.good(log))
    && (forall f, log, cs {:trigger Completes(c, f, log, cs)} :: c.file(f, log) && c.fits(log + [Concat(cs)])
          ==> Completes(c, f, log, cs))
    && (forall f, log, cs, k {:trigger Survives(c, f, log, cs, k)} ::
          c.file(f, log) && c.fits(log + [Concat(cs)]) && 0 <= k <= |c.ops(log, cs)| ==> Survives(c, f, log, cs, k))
  }

  /** The file operations of appending `rs` one after another. */
  ghost function OpsOfAll(c: Scheme, log: Log, rs: seq<Parts>): seq<Op> {
    if rs == [] then []
    else
      var front := rs[..|rs| - 1];
      OpsOfAll(c, log, front) + c.ops(Appended(log, front), rs[|rs| - 1])
  }

  lemma {:induction false} RunCompletes(c: Scheme, f: seq<byte>, log: Log, rs: seq<Parts>)
    requires Safe(c) && c.file(f, log) && c.fits(Appended(log, rs))
    ensures var d := Exec(Disk(f, []), OpsOfAll(c, log, rs));
      d.pending == [] && c.file(d.synced, Appended(log, rs))
  {
    if rs != [] {
      var front, last := rs[..|rs| - 1], rs[|rs| - 1];
      RunCompletes(c, f, log, front);
      var d := Exec(Disk(f, []), OpsOfAll(c, log, front));
      ExecSplit(Disk(f, []), OpsOfAll(c, log, front), c.ops(Appended(log, front), last));
      assert Completes(c, d.synced, Appended(log, front), last);
    }
  }

  /** A cut after `first`, of which everything is on the disk, is a cut of what follows. */
  lemma CutAfter(f: seq<byte>, g: seq<byte>, first: seq<Op>, next: seq<Op>, k: nat)
    requires Exec(Disk(f, []), first) == Disk(g, []) && |first| <= k <= |first| + |next|
    ensures Exec(Disk(f, []), (first + next)[..k]) == Exec(Disk(g, []), next[..k - |first|])
  {
    assert (first + next)[..k] == first + next[..k - |first|];
    ExecSplit(Disk(f, []), first, next[..k - |first|]);
  }

  lemma PrefixOfFront<T>(s: seq<T>, i: nat)
    ensures i < |s| ==> s[..|s| - 1][..i] == s[..i]
  {
  }

  /** A crash during the last append of a run. */
  lemma CrashInLast(c: Scheme, f: seq<byte>, log: Log, rs: seq<Parts>, k: nat)
    requires Safe(c) && c.file(f, log) && c.fits(Appended(log, rs)) && rs != []
    requires |OpsOfAll(c, log, rs[..|rs| - 1])| <= k <= |OpsOfAll(c, log, rs)|
    requires c.torn(Exec(Disk(f, []), OpsOfAll(c, log, rs)[..k]))
    ensures c.good(Appended(log, rs)) || (k < |OpsOfAll(c, log, rs)| && c.good(Appended(log, rs[..|rs| - 1])))
  {
    var front, last := rs[..|rs| - 1], rs[|rs| - 1];
    var first, next := OpsOfAll(c, log, front), c.ops(Appended(log, front), last);
    RunCompletes(c, f, log, front);
    var g := Exec(Disk(f, []), first).synced;
    CutAfter(f, g, first, next, k);
    assert Survives(c, g, Appended(log, front), last, k - |first|);
  }

  /** Then so are whole runs: wherever a run of appends is cut off, all `m` appends that had returned are
      recovered and possibly the one that had not. */
  lemma {:induction false} CrashInRun(c: Scheme, f: seq<byte>, log: Log, rs: seq<Parts>, k: nat) returns (m: nat,
                                      j: nat)
    requires Safe(c) && c.file(f, log) && c.fits(Appended(log, rs))
    requires k <= |OpsOfAll(c, log, rs)| && c.torn(Exec(Disk(f, []), OpsOfAll(c, log, rs)[..k]))
    ensures m <= j <= m + 1 && j <= |rs|
    ensures |OpsOfAll(c, log, rs[..m])| <= k
    ensures m < |rs| ==> k < |OpsOfAll(c, log, rs[..m + 1])|
    ensures c.good(Appended(log, rs[..j]))
  {
    assert rs[..|rs|] == rs;
    if rs == [] {
      m, j := 0, 0;
      return;
    }
    var front, last := rs[..|rs| - 1], rs[|rs| - 1];
    var first, next := OpsOfAll(c, log, front), c.ops(Appended(log, front), last);
    if k < |first| {
      assert (first + next)[..k] == first[..k];
      m, j := CrashInRun(c, f, log, front, k);
      PrefixOfFront(rs, m);
      PrefixOfFront(rs, m + 1);
      PrefixOfFront(rs, j);
    } else {
      CrashInLast(c, f, log, rs, k);
      j := if c.good(Appended(log, rs)) then |rs| else |front|;
      m := if k == |first| + |next| then |rs| else |front|;
    }
  }

  /** The scheme of a pile: well-formed files, synced appends, and images that load. */
  ghost function PileScheme(begin: nat, gen: seq<byte>, img: seq<byte>): Scheme {
    Scheme((f, log) => WellFormed(f, begin, gen, log),
           log => |log| <= CHUNK_UNIT && Offset(log, |log|) < I64,
           (log, cs) => OpsFor(begin, log, cs, true),
           d => Torn(d, img),
           log => LoadsAs(img, begin, gen, log))
  }

  lemma WholeLoads(f: seq<byte>, begin: nat, gen: seq<byte>, log: Log, img: seq<byte>)
    requires WellFormed(f, begin, gen, log) && Torn(Disk(f, []), img)
    ensures LoadsAs(img, begin, gen, log)
  {
    TornSame(Disk(f, []), img, 0, |f|);
    RoundTrip32(begin + |log|);
    TornSecond(f, img, HeadsAt(begin + |log|), Info(begin, gen), begin, log);
    Loads(img, begin, gen, log);
  }

  lemma PileCompletes(begin: nat, gen: seq<byte>, img: seq<byte>, f: seq<byte>, log: Log, cs: Parts)
    requires WellFormed(f, begin, gen, log) && PileScheme(begin, gen, img).fits(log + [Concat(cs)])
    ensures Completes(PileScheme(begin, gen, img), f, log, cs)
  {
    OffsetPrefix(log, Concat(cs), |log|);
    AppendSyncs(f, begin, log, cs);
    AppendExtends(f, begin, gen, log, cs, true);
  }

  lemma PileSurvives(begin: nat, gen: seq<byte>, img: seq<byte>, f: seq<byte>, log: Log, cs: Parts, k: nat)
    requires WellFormed(f, begin, gen, log) && PileScheme(begin, gen, img).fits(log + [Concat(cs)])
    requires k <= |OpsFor(begin, log, cs, true)|
    ensures Survives(PileScheme(begin, gen, img), f, log, cs, k)
  {
    OffsetPrefix(log, Concat(cs), |log|);
    OpsCount(begin, log, cs);
    if Torn(Exec(Disk(f, []), OpsFor(begin, log, cs, true)[..k]), img) {
      var _ := CrashSafe(f, begin, gen, log, cs, k, img);
    }
  }

  lemma PileIsSafe(begin: nat, gen: seq<byte>, img: seq<byte>)
    ensures Safe(PileScheme(begin, gen, img))
  {
    var c := PileScheme(begin, gen, img);
    forall log, x | c.fits(log + [x]) ensures c.fits(log) {
      OffsetPrefix(log, x, |log|);
    }
    forall f, log | c.file(f, log) && c.torn(Disk(f, [])) ensures c.good(log) {
      WholeLoads(f, begin, gen, log, img);
    }
    forall f, log, cs | c.file(f, log) && c.fits(log + [Concat(cs)]) ensures Completes(c, f, log, cs) {
      PileCompletes(begin, gen, img, f, log, cs);
    }
    forall f, log, cs, k | c.file(f, log) && c.fits(log + [Concat(cs)]) && 0 <= k <= |c.ops(log, cs)|
      ensures Survives(c, f, log, cs, k)
    {
      PileSurvives(begin, gen, img, f, log, cs, k);
    }
  }

  /** Crash safety of a whole run: wherever a run of synced appends is cut off, the file loads as a well-formed
      pile with all `m` appends that had returned and possibly the one that had not. */
  lemma CrashSafeRun(begin: nat, gen: seq<byte>, img: seq<byte>, c: Scheme, f: seq<byte>, log: Log, rs: seq<Parts>,
                     k: nat)
      returns (m: nat, j: nat)
    requires c == PileScheme(begin, gen, img) && c.file(f, log) && c.fits(Appended(log, rs))
    requires k <= |OpsOfAll(c, log, rs)| && c.torn(Exec(Disk(f, []), OpsOfAll(c, log, rs)[..k]))
    ensures m <= j <= m + 1 && j <= |rs|
    ensures |OpsOfAll(c, log, rs[..m])| <= k && (m < |rs| ==> k < |OpsOfAll(c, log, rs[..m + 1])|)
    ensures LoadsAs(img, begin, gen, Appended(log, rs[..j]))
  {
    PileIsSafe(begin, gen, img);
    m, j := CrashInRun(c, f, log, rs, k);
    GoodLoads(begin, gen, img, c, Appended(log, rs[..j]));
  }

  lemma GoodLoads(begin: nat, gen: seq<byte>, img: seq<byte>, c: Scheme, log: Log)
    requires c == PileScheme(begin, gen, img) && c.good(log)
    ensures LoadsAs(img, begin, gen, log)
  {
  }
}
