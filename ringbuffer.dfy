/** The fixed-capacity circular buffer of src/helper/Ringbuffer.py: an array of slots and a
    write index; `get` reads the slots starting at the index, dropping the empty ones. */
module Ringbuffers {
  import opened Faults

  /** The items held in `slots`, in order, with the empty slots dropped. */
  function Present<T>(slots: seq<Option<T>>): (r: seq<T>)
    ensures |r| <= |slots|
  {
    if slots == [] then []
    else (if slots[0].Some? then [slots[0].value] else []) + Present(slots[1..])
  }

  /** The last `n` items of `history` (all of them when there are fewer). */
  function Latest<T>(history: seq<T>, n: nat): seq<T>
  {
    if |history| <= n then history else history[|history| - n..]
  }

  function Blank<T>(m: nat): seq<Option<T>>
  {
    seq(m, _ => None)
  }

  function Wrap<T>(s: seq<T>): (r: seq<Option<T>>)
    ensures |r| == |s| && forall i :: 0 <= i < |s| ==> r[i] == Some(s[i])
  {
    seq(|s|, i requires 0 <= i < |s| => Some(s[i]))
  }

  /** The slots read from the write index onward, as `get` reads them, for a buffer of capacity
      `size` into which exactly the items of `history` were added: the never-written slots come
      first, then the last `size` items, oldest first. */
  function Window<T>(history: seq<T>, size: nat): (r: seq<Option<T>>)
    ensures |r| == size
  {
    var last := Latest(history, size);
    Blank(size - |last|) + Wrap(last)
  }

  /** The slots of `a` from index `i` onward, then those before it. */
  function Rotated<T>(a: seq<T>, i: nat): seq<T>
    requires i <= |a|
  {
    a[i..] + a[..i]
  }

  lemma {:induction false} PresentConcat<T>(a: seq<Option<T>>, b: seq<Option<T>>)
    ensures Present(a + b) == Present(a) + Present(b)
  {
    if a == [] {
      assert a + b == b;
    } else {
      assert (a + b)[0] == a[0];
      assert (a + b)[1..] == a[1..] + b;
      PresentConcat(a[1..], b);
    }
  }

  lemma {:induction false} PresentBlank<T>(m: nat)
    ensures Present(Blank<T>(m)) == []
  {
    if m > 0 {
      assert Blank<T>(m)[1..] == Blank<T>(m - 1);
      PresentBlank<T>(m - 1);
    }
  }

  lemma {:induction false} PresentWrap<T>(s: seq<T>)
    ensures Present(Wrap(s)) == s
  {
    if s != [] {
      assert Wrap(s)[1..] == Wrap(s[1..]);
      PresentWrap(s[1..]);
    }
  }

  /** What `get` returns: the last `size` items added, oldest first. */
  lemma PresentWindow<T>(history: seq<T>, size: nat)
    ensures Present(Window(history, size)) == Latest(history, size)
  {
    var last := Latest(history, size);
    PresentConcat(Blank<T>(size - |last|), Wrap(last));
    PresentBlank<T>(size - |last|);
    PresentWrap(last);
  }

  /** Adding an item drops the oldest slot of the window and appends the item. */
  lemma WindowAppend<T>(history: seq<T>, x: T, size: nat)
    requires size > 0
    ensures Window(history + [x], size) == Window(history, size)[1..] + [Some(x)]
  {
    var h := history + [x];
    if |history| < size {
      assert Latest(h, size) == h;
      assert Blank<T>(size - |history|)[1..] == Blank<T>(size - |h|);
      assert Wrap(h) == Wrap(history) + [Some(x)];
    } else {
      var last := history[|history| - size..];
      assert Latest(h, size) == last[1..] + [x];
      assert Wrap(last[1..] + [x]) == Wrap(last)[1..] + [Some(x)];
    }
  }

  /** Writing slot `i` and advancing the index past it turns the rotated view into the old view
      without its first slot, followed by the new item. */
  lemma RotateWrite<T>(a: seq<T>, i: nat, x: T)
    requires i < |a|
    ensures Rotated(a[i := x], (i + 1) % |a|) == Rotated(a, i)[1..] + [x]
  {
    var b := a[i := x];
    assert a[i..] == [a[i]] + a[i + 1..];
    assert Rotated(a, i)[1..] == a[i + 1..] + a[..i];
    if i + 1 < |a| {
      assert (i + 1) % |a| == i + 1;
      assert b[i + 1..] == a[i + 1..];
      assert b[..i + 1] == a[..i] + [x];
    } else {
      assert (i + 1) % |a| == 0;
      assert a[i + 1..] == [];
      assert b == a[..i] + [x];
      assert Rotated(b, 0) == b;
    }
  }

  class Ringbuffer<T> {
    const size: nat
    const buffer: array<Option<T>>
    var index: nat
    /** Every item ever added, oldest first. */
    ghost var history: seq<T>

    ghost predicate Valid()
      reads this, buffer
    {
      0 < size == buffer.Length && index < size &&
      Rotated(buffer[..], index) == Window(history, size)
    }

    /** The successful branch of `Ringbuffer(size)`: `size` empty slots, write index 0. */
    constructor (size: nat)
      requires size > 0
      ensures Valid() && fresh(buffer)
      ensures this.size == size && index == 0 && history == []
      ensures buffer[..] == Blank(size)
    {
      this.size := size;
      buffer := new Option<T>[size](_ => None);
      index := 0;
      history := [];
      new;
      assert buffer[..] == Blank(size);
    }

    /** `Ringbuffer(size)`: a ValueError for a size that is not positive. */
    static method Create(size: int) returns (r: Outcome<Ringbuffer<T>>)
      ensures r.Raise? <==> size <= 0
      ensures r.Raise? ==> r.fault.ValueError?
      ensures r.Return? ==> fresh(r.value) && fresh(r.value.buffer) && r.value.Valid()
      ensures r.Return? ==> r.value.size == size && r.value.index == 0 && r.value.Get() == []
    {
      if size <= 0 {
        r := Raise(ValueError("Size must be a positive integer"));
      } else {
        var b := new Ringbuffer<T>(size);
        r := Return(b);
      }
    }

    /** Store a present item at the write index and advance the index; an absent item (None)
        changes nothing. */
    method Add(item: Option<T>)
      requires Valid()
      modifies this, buffer
      ensures Valid()
      ensures item.None? ==> index == old(index) && buffer[..] == old(buffer[..]) && history == old(history)
      ensures item.Some? ==> buffer[..] == old(buffer[..])[old(index) := item]
      ensures item.Some? ==> index == (old(index) + 1) % size && history == old(history) + [item.value]
    {
      if item.Some? {
        ghost var before := buffer[..];
        buffer[index] := item;
        RotateWrite(before, index, item);
        WindowAppend(history, item.value, size);
        index := (index + 1) % size;
        history := history + [item.value];
      }
    }

    /** `get`: the stored items, oldest first; they are the last `size` items added. */
    function Get(): (r: seq<T>)
      requires Valid()
      reads this, buffer
      ensures r == Latest(history, size)
      ensures |r| <= size
    {
      PresentWindow(history, size);
      Present(Rotated(buffer[..], index))
    }

    /** `len`: how many slots hold an item. */
    function Length(): (n: nat)
      requires Valid()
      reads this, buffer
      ensures n == |Get()|
      ensures n <= size
      ensures n == if |history| <= size then |history| else size
    {
      |Get()|
    }
  }

  /** The buffer of capacity 3 from the source's tests: after 1, 2, 3, 4 it holds 2, 3, 4. */
  method OverwriteExample() returns (window: seq<int>)
    ensures window == [2, 3, 4]
  {
    var b := new Ringbuffer<int>(3);
    b.Add(Some(1));
    b.Add(Some(2));
    b.Add(None);
    b.Add(Some(3));
    assert b.Get() == [1, 2, 3];
    b.Add(Some(4));
    assert b.history == [1, 2, 3, 4];
    window := b.Get();
  }
}
