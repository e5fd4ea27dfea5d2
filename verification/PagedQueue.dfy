/** A first-in first-out queue kept in pages, each a ring of 1024 slots. */
module PagedQueue {
  import opened Options

  const CAP: nat := 1024

  class Page<T(0)> {
    const slots: array<T>
    var head: nat
    var tail: nat
    var size: nat
    /** What the ring holds, first in first. */
    ghost var view: seq<T>

    ghost predicate Valid()
      reads this, slots
    {
      && slots.Length == CAP && head < CAP && size == |view| <= CAP && tail == (head + size) % CAP
      && forall i :: 0 <= i < size ==> slots[At(head, i)] == view[i]
    }

    constructor ()
      ensures Valid() && view == [] && fresh(slots)
    {
      slots := new T[CAP];
      head, tail, size, view := 0, 0, 0, [];
    }

    /** Puts an item into the ring; a full one refuses it. */
    method Push(item: T) returns (ok: bool)
      requires Valid()
      modifies this, slots
      ensures Valid() && ok == (|old(view)| < CAP)
      ensures view == if ok then old(view) + [item] else old(view)
    {
      if size >= CAP { return false; }
      AllApart(head, size, tail);
      slots[tail] := item;
      tail := (tail + 1) % CAP;
      size, view := size + 1, view + [item];
      ok := true;
    }

    method Peek() returns (item: Option<T>)
      requires Valid()
      ensures item == if view == [] then None else Some(view[0])
    {
      if size == 0 { return None; }
      assert slots[At(head, 0)] == view[0];
      item := Some(slots[head]);
    }

    method Pop() returns (item: Option<T>)
      requires Valid()
      modifies this
      ensures Valid()
      ensures item == (if old(view) == [] then None else Some(old(view)[0]))
      ensures view == if old(view) == [] then [] else old(view)[1..]
    {
      if size == 0 { return None; }
      assert slots[At(head, 0)] == view[0];
      item := Some(slots[head]);
      RingMoves(head, size);
      RestHeld(slots[..], head, view);
      head := (head + 1) % CAP;
      size, view := size - 1, view[1..];
    }
  }

  function At(head: nat, i: nat): nat { (head + i) % CAP }

  /** Starting one later with one less ends at the same slot. */
  lemma RingMoves(head: nat, size: nat)
    requires 0 < size
    ensures At((head + 1) % CAP, size - 1) == At(head, size)
  {
  }

  lemma RestHeld<T>(slots: seq<T>, head: nat, s: seq<T>)
    requires |slots| == CAP && head < CAP && 0 < |s| && forall i :: 0 <= i < |s| ==> slots[At(head, i)] == s[i]
    ensures forall i :: 0 <= i < |s| - 1 ==> slots[At((head + 1) % CAP, i)] == s[1..][i]
  {
    forall i | 0 <= i < |s| - 1 ensures slots[At((head + 1) % CAP, i)] == s[1..][i] {
      RingMoves(head, i + 1);
      assert slots[At(head, i + 1)] == s[i + 1];
    }
  }

  lemma AllApart(head: nat, size: nat, tail: nat)
    requires head < CAP && size < CAP && tail == (head + size) % CAP
    ensures forall i :: 0 <= i < size ==> At(head, i) != tail
  {
  }

  function Flat<T>(parts: seq<seq<T>>): seq<T> {
    if parts == [] then [] else Flat(parts[..|parts| - 1]) + parts[|parts| - 1]
  }

  lemma FlatLast<T>(parts: seq<seq<T>>, x: T)
    requires parts != []
    ensures Flat(parts[|parts| - 1 := parts[|parts| - 1] + [x]]) == Flat(parts) + [x]
  {
    var n := |parts| - 1;
    assert parts[n := parts[n] + [x]][..n] == parts[..n];
  }

  lemma {:induction false} FlatFirst<T>(parts: seq<seq<T>>)
    requires parts != []
    ensures Flat(parts) == parts[0] + Flat(parts[1..])
  {
    var n := |parts| - 1;
    if n > 0 {
      FlatFirst(parts[..n]);
      assert parts[..n][1..] == parts[1..][..n - 1];
    } else {
      assert parts[1..] == [];
    }
  }

  class Queue<T(0)> {
    var pages: seq<Page<T>>
    var size: nat
    /** What the pages hold, page by page. */
    ghost var parts: seq<seq<T>>

    /** The pages are distinct rings that hold `parts`. */
    ghost predicate Paged()
      reads this, pages, set p | p in pages :: p.slots
    {
      && |parts| == |pages| && size == |Flat(parts)|
      && (forall i :: 0 <= i < |pages| ==> pages[i].Valid() && pages[i].view == parts[i])
      && (forall i, j :: 0 <= i < j < |pages| ==> pages[i] != pages[j] && pages[i].slots != pages[j].slots)
    }

    /** Only a single page may be empty. */
    ghost predicate Valid()
      reads this, pages, set p | p in pages :: p.slots
    {
      Paged() && (|parts| > 1 ==> forall i :: 0 <= i < |parts| ==> parts[i] != [])
    }

    ghost function Contents(): seq<T>
      reads this
    {
      Flat(parts)
    }

    constructor ()
      ensures Valid() && Contents() == []
    {
      pages, size, parts := [], 0, [];
    }

    method AddPage() returns (page: Page<T>)
      requires Paged() && forall i :: 0 <= i < |parts| ==> parts[i] != []
      modifies this`pages, this`parts
      ensures Paged() && Contents() == old(Contents()) && fresh(page) && fresh(page.slots) && page.view == []
      ensures pages == old(pages) + [page] && forall i :: 0 <= i < |parts| - 1 ==> parts[i] != []
    {
      page := new Page<T>();
      FlatEmpty(parts);
      pages, parts := pages + [page], parts + [[]];
    }

    /** The page that takes the next item: the last one, or a new one when that is full. */
    method LastPage() returns (page: Page<T>)
      requires Valid()
      modifies this`pages, this`parts
      ensures Paged() && Contents() == old(Contents()) && pages != [] && page == pages[|pages| - 1] && |page.view| < CAP
      ensures forall i :: 0 <= i < |parts| - 1 ==> parts[i] != []
      ensures pages == old(pages) || (pages == old(pages) + [page] && fresh(page) && fresh(page.slots))
    {
      if |pages| == 0 {
        page := AddPage();
      } else {
        page := pages[|pages| - 1];
        assert page.view == parts[|parts| - 1];
        if page.size == CAP { page := AddPage(); }
      }
    }

    /** Puts an item at the end of the last page. */
    method PutLast(page: Page<T>, item: T)
      requires Paged() && pages != [] && page == pages[|pages| - 1] && |page.view| < CAP
      modifies this`size, this`parts, page, page.slots
      ensures Paged() && Contents() == old(Contents()) + [item] && |parts| == |old(parts)| && parts[|parts| - 1] != []
      ensures forall i :: 0 <= i < |parts| - 1 ==> parts[i] == old(parts)[i]
    {
      var _ := page.Push(item);
      FlatLast(parts, item);
      size, parts := size + 1, parts[|parts| - 1 := parts[|parts| - 1] + [item]];
    }

    method Push(item: T)
      requires Valid()
      modifies this, pages, set p | p in pages :: p.slots
      ensures Valid() && Contents() == old(Contents()) + [item]
    {
      var page := LastPage();
      PutLast(page, item);
    }

    method Peek() returns (item: Option<T>)
      requires Valid()
      ensures item == if Contents() == [] then None else Some(Contents()[0])
    {
      if |pages| == 0 { return None; }
      FlatFirst(parts);
      if |pages| == 1 { assert Flat(parts[1..]) == []; }
      item := pages[0].Peek();
    }

    /** Takes the first item of the first page. */
    method TakeFirst() returns (item: Option<T>)
      requires Paged() && pages != []
      modifies this`size, this`parts, pages[0]
      ensures Paged() && |parts| == |old(parts)| && parts[1..] == old(parts)[1..]
      ensures old(parts)[0] == [] ==> item == None && parts == old(parts)
      ensures old(parts)[0] != [] ==> item == Some(old(parts)[0][0]) && parts[0] == old(parts)[0][1..]
    {
      FlatFirst(parts);
      item := pages[0].Pop();
      if item.Some? {
        ghost var rest := [parts[0][1..]] + parts[1..];
        FlatFirst(rest);
        assert rest[1..] == parts[1..];
        parts, size := rest, size - 1;
      }
    }

    /** An empty first page goes. */
    method DropPage()
      requires Paged() && |pages| > 1 && parts[0] == []
      modifies this`pages, this`parts
      ensures Paged() && parts == old(parts)[1..] && Contents() == old(Contents())
    {
      FlatFirst(parts);
      pages, parts := pages[1..], parts[1..];
    }

    /** Takes the first item; a page that has become empty goes, unless it is the only one. */
    method Pop() returns (item: Option<T>)
      requires Valid()
      modifies this, pages
      ensures Valid()
      ensures item == (if old(Contents()) == [] then None else Some(old(Contents())[0]))
      ensures Contents() == if old(Contents()) == [] then [] else old(Contents())[1..]
    {
      if |pages| == 0 { return None; }
      FlatFirst(parts);
      ghost var tail := parts[1..];
      if |pages| == 1 { assert Flat(tail) == []; }
      item := TakeFirst();
      FlatFirst(parts);
      if item.Some? && pages[0].size == 0 && |pages| > 1 { DropPage(); }
    }
  }

  lemma FlatEmpty<T>(parts: seq<seq<T>>)
    ensures Flat(parts + [[]]) == Flat(parts)
  {
    assert (parts + [[]])[..|parts|] == parts;
  }
}
