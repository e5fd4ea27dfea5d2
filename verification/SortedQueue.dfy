/** A queue sorted by priority, kept in a window of a growing array. */
module SortedQueue {
  import opened Options

  datatype Entry<+T> = Entry(value: T, priority: nat)

  predicate Sorted<T>(s: seq<Entry<T>>) {
    forall i, j :: 0 <= i < j < |s| ==> s[i].priority <= s[j].priority
  }

  /** The number of leading entries whose priority is at most `p`. */
  function UpTo<T>(s: seq<Entry<T>>, p: nat): (n: nat)
    ensures n <= |s|
  {
    if s == [] || p < s[0].priority then 0 else 1 + UpTo(s[1..], p)
  }

  lemma {:induction false} UpToSpec<T>(s: seq<Entry<T>>, p: nat)
    ensures var n := UpTo(s, p);
      (forall i :: 0 <= i < n ==> s[i].priority <= p) && (n < |s| ==> p < s[n].priority)
  {
    if s != [] && s[0].priority <= p {
      UpToSpec(s[1..], p);
    }
  }

  lemma UpToIs<T>(s: seq<Entry<T>>, p: nat, n: nat)
    requires n <= |s| && (forall i :: 0 <= i < n ==> s[i].priority <= p) && (n < |s| ==> p < s[n].priority)
    ensures n == UpTo(s, p)
  {
    UpToSpec(s, p);
  }

  /** A new entry goes behind those of the same priority. */
  function Inserted<T>(s: seq<Entry<T>>, e: Entry<T>): seq<Entry<T>> {
    var n := UpTo(s, e.priority);
    s[..n] + [e] + s[n..]
  }

  lemma InsertedSorted<T>(s: seq<Entry<T>>, e: Entry<T>, n: nat)
    requires Sorted(s) && n <= |s|
    requires forall k :: 0 <= k < n ==> s[k].priority <= e.priority
    requires forall k :: n <= k < |s| ==> e.priority <= s[k].priority
    ensures Sorted(s[..n] + [e] + s[n..])
  {
    var t := s[..n] + [e] + s[n..];
    forall i, j | 0 <= i < j < |t| ensures t[i].priority <= t[j].priority {
      assert t[i] == if i < n then s[i] else if i == n then e else s[i - 1];
      assert t[j] == if j < n then s[j] else if j == n then e else s[j - 1];
    }
  }

  lemma InsertedKeeps<T>(s: seq<Entry<T>>, e: Entry<T>)
    requires Sorted(s)
    ensures Sorted(Inserted(s, e)) && multiset(Inserted(s, e)) == multiset(s) + multiset{e}
  {
    var n := UpTo(s, e.priority);
    UpToSpec(s, e.priority);
    AllAbove(s, n, e.priority);
    InsertedSorted(s, e, n);
    InsertedAll(s, e, n);
  }

  lemma AllAbove<T>(s: seq<Entry<T>>, n: nat, p: nat)
    requires Sorted(s) && n <= |s| && (n < |s| ==> p < s[n].priority)
    ensures forall k :: n <= k < |s| ==> p <= s[k].priority
  {
  }

  lemma InsertedAll<T>(s: seq<Entry<T>>, e: Entry<T>, n: nat)
    requires n <= |s|
    ensures multiset(s[..n] + [e] + s[n..]) == multiset(s) + multiset{e}
  {
    assert s == s[..n] + s[n..];
  }

  /** The first entry of a priority. */
  function Lookup<T>(s: seq<Entry<T>>, p: nat): Option<T> {
    if s == [] then None
    else if s[0].priority == p then Some(s[0].value)
    else Lookup(s[1..], p)
  }

  /** What is left when everything below `p` and one entry of `p` are gone. */
  function DroppedUntil<T>(s: seq<Entry<T>>, p: nat): seq<Entry<T>> {
    if s == [] || s[0].priority > p then s
    else if s[0].priority == p then s[1..]
    else DroppedUntil(s[1..], p)
  }

  lemma {:induction false} LookupNone<T>(s: seq<Entry<T>>, p: nat)
    requires Sorted(s) && s != [] && s[0].priority > p
    ensures Lookup(s, p) == None
  {
    if |s| > 1 {
      LookupNone(s[1..], p);
    }
  }

  /** Looking up finds an entry exactly when there is one. */
  lemma {:induction false} LookupFinds<T>(s: seq<Entry<T>>, p: nat)
    ensures Lookup(s, p).Some? <==> exists i :: 0 <= i < |s| && s[i].priority == p
    ensures Lookup(s, p).Some? ==> exists i :: 0 <= i < |s| && s[i] == Entry(Lookup(s, p).value, p)
  {
    if s != [] {
      LookupFinds(s[1..], p);
      if s[0].priority != p {
        if Lookup(s, p).Some? {
          var i :| 0 <= i < |s[1..]| && s[1..][i] == Entry(Lookup(s, p).value, p);
          assert s[i + 1] == s[1..][i];
        }
        if exists i :: 0 <= i < |s| && s[i].priority == p {
          var i :| 0 <= i < |s| && s[i].priority == p;
          assert s[1..][i - 1] == s[i];
        }
      }
    }
  }

  /** Popping until a priority leaves exactly the entries above it, and those of it but the first. */
  lemma {:induction false} DroppedUntilIs<T>(s: seq<Entry<T>>, p: nat)
    requires Sorted(s)
    ensures var t := DroppedUntil(s, p);
      && |t| <= |s| && t == s[|s| - |t|..]
      && (forall i :: 0 <= i < |s| - |t| ==> s[i].priority <= p)
      && (forall i :: 0 <= i < |t| ==> t[i].priority >= p)
      && (Lookup(s, p).None? ==> forall i :: 0 <= i < |t| ==> t[i].priority > p)
  {
    if s != [] && s[0].priority < p {
      DroppedUntilIs(s[1..], p);
      assert s[1..][|s[1..]| - |DroppedUntil(s, p)|..] == s[|s| - |DroppedUntil(s, p)|..];
    } else if s != [] && s[0].priority > p {
      LookupNone(s, p);
    }
  }

  // ---- filled through FindOrInsert the queue is a sorted map ----

  /** No two entries have the same priority. */
  predicate Strict<T>(s: seq<Entry<T>>) {
    forall i, j :: 0 <= i < j < |s| ==> s[i].priority < s[j].priority
  }

  predicate HasPriority<T>(s: seq<Entry<T>>, p: nat) {
    exists i :: 0 <= i < |s| && s[i].priority == p
  }

  /** The queue holds exactly the map. */
  ghost predicate Shows<T>(s: seq<Entry<T>>, m: map<nat, T>) {
    && (forall i :: 0 <= i < |s| ==> s[i].priority in m && m[s[i].priority] == s[i].value)
    && (forall p :: p in m ==> HasPriority(s, p))
  }

  lemma LookupShows<T>(s: seq<Entry<T>>, m: map<nat, T>, p: nat)
    requires Shows(s, m)
    ensures Lookup(s, p) == if p in m then Some(m[p]) else None
  {
    LookupFinds(s, p);
    assert p in m <==> HasPriority(s, p);
  }

  lemma InsertedAt<T>(s: seq<Entry<T>>, e: Entry<T>, n: nat, t: seq<Entry<T>>)
    requires n <= |s| && t == s[..n] + [e] + s[n..]
    ensures forall i :: 0 <= i < |t| ==> t[i] == if i < n then s[i] else if i == n then e else s[i - 1]
  {
  }

  lemma InsertedStrict<T>(s: seq<Entry<T>>, e: Entry<T>, t: seq<Entry<T>>)
    requires Strict(s) && Lookup(s, e.priority).None? && t == Inserted(s, e)
    ensures Strict(t)
  {
    var n := UpTo(s, e.priority);
    UpToSpec(s, e.priority);
    LookupFinds(s, e.priority);
    InsertedAt(s, e, n, t);
  }

  /** A new priority joins the map. */
  lemma InsertedShows<T>(s: seq<Entry<T>>, m: map<nat, T>, e: Entry<T>, t: seq<Entry<T>>)
    requires Shows(s, m) && e.priority !in m && t == Inserted(s, e)
    ensures Shows(t, m[e.priority := e.value])
  {
    var n := UpTo(s, e.priority);
    InsertedAt(s, e, n, t);
    forall p | p in m[e.priority := e.value] ensures HasPriority(t, p) {
      if p == e.priority {
        assert t[n].priority == p;
      } else {
        var i :| 0 <= i < |s| && s[i].priority == p;
        assert t[if i < n then i else i + 1].priority == p;
      }
    }
  }

  lemma SuffixShows<T>(s: seq<Entry<T>>, m: map<nat, T>, n: nat, p: nat)
    requires Shows(s, m) && n <= |s| && forall i :: 0 <= i < |s| ==> (s[i].priority <= p <==> i < n)
    ensures Shows(s[n..], map k | k in m && k > p :: m[k])
  {
    forall k | k in m && k > p ensures HasPriority(s[n..], k) {
      var i :| 0 <= i < |s| && s[i].priority == k;
      assert s[n..][i - n].priority == k;
    }
  }

  /** Popping until a priority leaves exactly the entries above it. */
  lemma {:induction false} DroppedStrict<T>(s: seq<Entry<T>>, p: nat, t: seq<Entry<T>>)
    requires Strict(s) && t == DroppedUntil(s, p)
    ensures |t| <= |s| && t == s[|s| - |t|..] && Strict(t)
    ensures forall i :: 0 <= i < |s| ==> (s[i].priority <= p <==> i < |s| - |t|)
  {
    if s != [] && s[0].priority < p {
      DroppedStrict(s[1..], p, t);
      assert s[1..][|s[1..]| - |t|..] == s[|s| - |t|..];
      forall i | 0 < i < |s| ensures s[i].priority <= p <==> i < |s| - |t| {
        assert s[1..][i - 1] == s[i];
      }
    }
  }

  lemma DroppedEntries<T>(s: seq<Entry<T>>, p: nat, t: seq<Entry<T>>)
    requires Strict(s) && t == DroppedUntil(s, p)
    ensures forall e :: e in t <==> e in s && e.priority > p
  {
    DroppedStrict(s, p, t);
    var n := |s| - |t|;
    forall e | e in s && e.priority > p ensures e in t {
      var i :| 0 <= i < |s| && s[i] == e;
      assert t[i - n] == e;
    }
  }

  // ---- runs ----

  datatype Op<+T> = FindOrInsertOp(value: T, priority: nat) | PopOp | PopUntilOp(priority: nat)

  function Apply<T>(s: seq<Entry<T>>, op: Op<T>): seq<Entry<T>> {
    match op
    case FindOrInsertOp(v, p) => if Lookup(s, p).Some? then s else Inserted(s, Entry(v, p))
    case PopOp => if s == [] then [] else s[1..]
    case PopUntilOp(p) => DroppedUntil(s, p)
  }

  function Above<T>(m: map<nat, T>, p: nat): map<nat, T> {
    map k | k in m && k > p :: m[k]
  }

  ghost predicate LeastOf<T>(m: map<nat, T>, k: nat) {
    k in m && forall l :: l in m ==> k <= l
  }

  /** What the operations do to a finite map. */
  ghost predicate MapStep<T>(m: map<nat, T>, op: Op<T>, m': map<nat, T>) {
    match op
    case FindOrInsertOp(v, p) => m' == if p in m then m else m[p := v]
    case PopOp => (m' == m == map[]) || exists k :: LeastOf(m, k) && m' == m - {k}
    case PopUntilOp(p) => m' == Above(m, p)
  }

  /** The top has the least priority, and popping takes it off the map. */
  lemma PopSteps<T>(s: seq<Entry<T>>, m: map<nat, T>, m': map<nat, T>)
    requires Strict(s) && s != [] && Shows(s, m) && m' == Above(m, s[0].priority)
    ensures LeastOf(m, s[0].priority) && m' == m - {s[0].priority} && Strict(s[1..]) && Shows(s[1..], m')
  {
    SuffixShows(s, m, 1, s[0].priority);
  }

  /** One operation on the queue is that operation on the map. */
  lemma ApplySteps<T>(s: seq<Entry<T>>, m: map<nat, T>, op: Op<T>) returns (m': map<nat, T>)
    requires Strict(s) && Shows(s, m)
    ensures Strict(Apply(s, op)) && MapStep(m, op, m') && Shows(Apply(s, op), m')
  {
    match op
    case FindOrInsertOp(v, p) =>
      LookupShows(s, m, p);
      m' := if p in m then m else m[p := v];
      if p !in m {
        InsertedStrict(s, Entry(v, p), Apply(s, op));
        InsertedShows(s, m, Entry(v, p), Apply(s, op));
      }
    case PopOp =>
      if s == [] {
        m' := m;
        assert m == map[];
      } else {
        m' := Above(m, s[0].priority);
        PopSteps(s, m, m');
      }
    case PopUntilOp(p) =>
      m' := Above(m, p);
      DroppedStrict(s, p, Apply(s, op));
      SuffixShows(s, m, |s| - |Apply(s, op)|, p);
  }

  function RunAll<T>(ops: seq<Op<T>>): seq<Entry<T>> {
    if ops == [] then [] else Apply(RunAll(ops[..|ops| - 1]), ops[|ops| - 1])
  }

  /** `m` is what the operations make of the empty map. */
  ghost predicate MapRun<T(!new)>(ops: seq<Op<T>>, m: map<nat, T>)
    decreases |ops|
  {
    if ops == [] then m == map[]
    else
      var last := ops[|ops| - 1];
      exists before {:trigger MapStep(before, last, m)} :: MapStep(before, last, m) && MapRun(ops[..|ops| - 1], before)
  }

  /** Every run of the queue is one of a finite map: priorities stay different, and the queue holds what it does. */
  lemma {:induction false} RunIsMap<T(!new)>(ops: seq<Op<T>>) returns (m: map<nat, T>)
    ensures MapRun(ops, m) && Strict(RunAll(ops)) && Shows(RunAll(ops), m)
    decreases |ops|
  {
    if ops == [] {
      m := map[];
    } else {
      var before := RunIsMap(ops[..|ops| - 1]);
      m := ApplySteps(RunAll(ops[..|ops| - 1]), before, ops[|ops| - 1]);
    }
  }

  /** Copying `src` over `items` from `at` on, as far as both reach. */
  function Copied<A>(items: seq<A>, at: nat, src: seq<A>): (r: seq<A>)
    requires at <= |items|
    ensures |r| == |items|
  {
    var n := if at + |src| <= |items| then |src| else |items| - at;
    items[..at] + src[..n] + items[at + n..]
  }

  lemma CopiedSpec<A>(items: seq<A>, at: nat, src: seq<A>)
    requires at <= |items|
    ensures var r := Copied(items, at, src);
      forall i :: 0 <= i < |r| ==> r[i] == if at <= i < at + |src| then src[i - at] else items[i]
  {
  }

  /** `items` has the entries `s` from `head` on. */
  ghost predicate Holds<T>(items: seq<Option<Entry<T>>>, head: nat, s: seq<Entry<T>>) {
    head + |s| <= |items| && forall i :: 0 <= i < |s| ==> items[head + i] == Some(s[i])
  }

  /** `items` has the entries `s` from `head` on, but for a hole before entry `n`. */
  ghost predicate HoldsBut<T>(items: seq<Option<Entry<T>>>, head: nat, s: seq<Entry<T>>, n: nat)
    requires n <= |s|
  {
    && head + |s| < |items|
    && (forall i :: 0 <= i < n ==> items[head + i] == Some(s[i]))
    && (forall i :: n <= i < |s| ==> items[head + i + 1] == Some(s[i]))
  }

  lemma HoleFilled<T>(items: seq<Option<Entry<T>>>, head: nat, s: seq<Entry<T>>, n: nat, e: Entry<T>)
    requires n <= |s| && HoldsBut(items, head, s, n)
    ensures Holds(items[head + n := Some(e)], head, s[..n] + [e] + s[n..])
  {
    var t, u := s[..n] + [e] + s[n..], items[head + n := Some(e)];
    forall i | 0 <= i < |t| ensures u[head + i] == Some(t[i]) {
      if i > n {
        assert t[i] == s[i - 1];
        assert items[head + (i - 1) + 1] == Some(s[i - 1]);
      }
    }
  }

  lemma ShiftedDown<T>(items: seq<Option<Entry<T>>>, head: nat, s: seq<Entry<T>>)
    requires head > 0 && head + |s| == |items| && Holds(items, head, s)
    ensures Holds(Copied(items, head - 1, items[head..]), head - 1, s)
  {
    var t := Copied(items, head - 1, items[head..]);
    CopiedSpec(items, head - 1, items[head..]);
    forall i | 0 <= i < |s| ensures t[head - 1 + i] == Some(s[i]) {
      assert items[head..][i] == items[head + i];
    }
  }

  lemma ShiftedUp<T>(items: seq<Option<Entry<T>>>, head: nat, s: seq<Entry<T>>, n: nat)
    requires n <= |s| && Holds(items, head, s) && head + |s| + 1 == |items|
    ensures HoldsBut(Copied(items, head + n + 1, items[head + n..]), head, s, n)
  {
    var t := Copied(items, head + n + 1, items[head + n..]);
    CopiedSpec(items, head + n + 1, items[head + n..]);
    forall i | n <= i < |s| ensures t[head + i + 1] == Some(s[i]) {
      assert items[head + n..][i - n] == items[head + i];
    }
  }

  lemma Compacted<T>(items: seq<Option<Entry<T>>>, head: nat, s: seq<Entry<T>>, into: seq<Option<Entry<T>>>)
    requires Holds(items, head, s) && |s| <= |into|
    ensures Holds(Copied(into, 0, items[head..head + |s|]), 0, s)
  {
    CopiedSpec(into, 0, items[head..head + |s|]);
    forall i | 0 <= i < |s| ensures Copied(into, 0, items[head..head + |s|])[0 + i] == Some(s[i]) {
      assert items[head..head + |s|][i] == items[head + i];
    }
  }

  class Queue<T> {
    var items: seq<Option<Entry<T>>>
    var head: nat
    var size: nat
    /** What the queue holds, in order. */
    ghost var view: seq<Entry<T>>

    ghost predicate Valid()
      reads this
    {
      size == |view| && Holds(items, head, view) && Sorted(view)
    }

    constructor ()
      ensures Valid() && view == []
    {
      items, head, size, view := [], 0, 0, [];
    }

    /** Binary search for the place behind the entries of at most the given priority. */
    method Search(priority: nat) returns (n: nat)
      requires Valid()
      ensures n == UpTo(view, priority)
    {
      var i, j := 0, size;
      while i < j
        invariant 0 <= i <= j <= size
        invariant forall k :: 0 <= k < i ==> view[k].priority <= priority
        invariant forall k :: j <= k < size ==> priority < view[k].priority
      {
        var h := (i + j) / 2;
        assert items[head + h] == Some(view[h]);
        if !(priority < items[head + h].value.priority) { i := h + 1; } else { j := h; }
      }
      n := i;
      UpToIs(view, priority, n);
    }

    /** Makes a hole before entry `n` of the window, in one of three layouts. */
    method MakeHole(n: nat)
      requires size == |view| && Holds(items, head, view) && n <= size
      modifies this`items, this`head
      ensures HoldsBut(items, head, view, n)
    {
      var idx := head + n;
      if size == |items| {
        items := items + [None];
        ShiftedUp(items, head, view, n);
        items := Copied(items, idx + 1, items[idx..]);
      } else {
        var last := head + size;
        if last == |items| {
          ShiftLeft(n);
        } else {
          items := items[..idx + 1] + items[idx..last] + items[last + 1..];
        }
      }
    }

    /** The window ends with the array: everything goes one down, and what is behind the hole up again. */
    method ShiftLeft(n: nat)
      requires size == |view| && Holds(items, head, view) && n <= size && head > 0 && head + size == |items|
      modifies this`items, this`head
      ensures HoldsBut(items, head, view, n)
    {
      ShiftedDown(items, head, view);
      items, head := Copied(items, head - 1, items[head..]), head - 1;
      Reopen(head + n, head + size + 1, n);
    }

    /** What is behind the hole goes one up again, if there is something. */
    method Reopen(idx: nat, last: nat, ghost n: nat)
      requires size == |view| && Holds(items, head, view) && n <= size && idx == head + n
      requires last == |items| == head + size + 1
      modifies this`items
      ensures HoldsBut(items, head, view, n)
    {
      if idx != last - 1 {
        ShiftedUp(items, head, view, n);
        assert items[idx..last] == items[idx..];
        items := Copied(items, idx + 1, items[idx..last]);
      }
    }

    /** Inserts behind the entries of the same priority; an entry of the same priority is never replaced. */
    method Insert(value: T, priority: nat)
      requires Valid()
      modifies this
      ensures Valid() && view == Inserted(old(view), Entry(value, priority))
    {
      var n := Search(priority);
      var item := Entry(value, priority);
      UpToSpec(view, priority);
      if n < size && items[head + n].value.priority == priority {
        assert false;
      } else {
        InsertedKeeps(view, item);
        PutAt(n, item);
      }
    }

    method PutAt(n: nat, item: Entry<T>)
      requires size == |view| && Holds(items, head, view) && n <= size
      modifies this
      ensures size == |view| && Holds(items, head, view) && view == old(view)[..n] + [item] + old(view)[n..]
    {
      MakeHole(n);
      HoleFilled(items, head, view, n, item);
      items, size := items[head + n := Some(item)], size + 1;
      view := view[..n] + [item] + view[n..];
    }

    method Peek() returns (top: Option<Entry<T>>)
      requires Valid()
      ensures top == if view == [] then None else Some(view[0])
    {
      top := if size == 0 then None else items[head];
    }

    /** The first entry of a priority, looked for from the top. */
    method Find(priority: nat) returns (found: Option<T>)
      requires Valid()
      ensures found == Lookup(view, priority)
    {
      var i := 0;
      while i < size
        invariant 0 <= i <= size && Lookup(view, priority) == Lookup(view[i..], priority)
      {
        assert view[i..][1..] == view[i + 1..];
        assert items[head + i] == Some(view[i]);
        var item := items[head + i].value;
        if item.priority == priority { return Some(item.value); }
        if item.priority > priority {
          LookupNone(view[i..], priority);
          return None;
        }
        i := i + 1;
      }
      found := None;
    }

    /** The entry of a priority, or nothing after inserting one. */
    method FindOrInsert(value: T, priority: nat) returns (found: Option<T>)
      requires Valid()
      modifies this
      ensures Valid() && found == Lookup(old(view), priority)
      ensures view == if found.Some? then old(view) else Inserted(old(view), Entry(value, priority))
      ensures Strict(old(view)) ==> Strict(view)
    {
      found := Find(priority);
      if found.None? {
        if Strict(view) { InsertedStrict(view, Entry(value, priority), Inserted(view, Entry(value, priority))); }
        Insert(value, priority);
      }
    }

    /** A large array that has become empty or one-sided is compacted. */
    method Compact()
      requires Valid()
      modifies this`items, this`head
      ensures Valid()
    {
      if |items| > 4096 {
        if size < 1024 {
          Compacted(items, head, view, seq(2048, _ => None));
          items, head := Copied(seq(2048, _ => None), 0, items[head..head + size]), 0;
        } else if head > |items| / 2 + 1 {
          Compacted(items, head, view, items);
          items, head := Copied(items, 0, items[head..head + size]), 0;
        }
      }
    }

    /** Takes the top. */
    method Pop() returns (top: Option<T>)
      requires Valid()
      modifies this
      ensures Valid()
      ensures top == (if old(view) == [] then None else Some(old(view)[0].value))
      ensures view == if old(view) == [] then [] else old(view)[1..]
      ensures Strict(old(view)) ==> Strict(view)
    {
      if size == 0 { return None; }
      assert items[head + 0] == Some(view[0]);
      top := Some(items[head].value.value);
      items, head, size := items[head := None], head + 1, size - 1;
      view := view[1..];
      Compact();
    }

    /** Drops what is below a priority and takes one entry of it, if there is one. */
    method PopUntil(priority: nat) returns (found: Option<T>)
      requires Valid()
      modifies this
      ensures Valid() && view == DroppedUntil(old(view), priority) && found == Lookup(old(view), priority)
      ensures Strict(old(view)) ==> Strict(view) && forall e :: e in view <==> e in old(view) && e.priority > priority
    {
      if Strict(view) {
        DroppedStrict(view, priority, DroppedUntil(view, priority));
        DroppedEntries(view, priority, DroppedUntil(view, priority));
      }
      while true
        invariant Valid() && DroppedUntil(view, priority) == DroppedUntil(old(view), priority)
        invariant Lookup(view, priority) == Lookup(old(view), priority)
        decreases size
      {
        var top := Peek();
        if top.None? { return None; }
        if top.value.priority < priority {
          var _ := Pop();
        } else if top.value.priority == priority {
          found := Pop();
          return;
        } else {
          LookupNone(view, priority);
          return None;
        }
      }
    }
  }
}
