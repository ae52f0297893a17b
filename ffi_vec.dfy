/**
 * The C-compatible vector of the FFI layer (ddcommon-ffi/src/vec.rs): the raw
 * parts of a Rust `Vec` — a buffer, a length and a capacity. The buffer is an
 * array of `capacity` slots of which the first `len` hold elements.
 */
module FfiVec {
  import opened Wrappers

  /** A standard-library `Vec`: its elements and its capacity. */
  datatype StdVec<T> = StdVec(elements: seq<T>, capacity: nat)

  class Vec<T(0)> {
    var buf: array<T>
    var len: nat
    var capacity: nat

    ghost predicate Valid()
      reads this
    {
      buf.Length == capacity && len <= capacity
    }

    /** The elements, in order. */
    function Elements(): (r: seq<T>)
      reads this, buf
      requires Valid()
      ensures |r| == len && forall i :: 0 <= i < len ==> r[i] == buf[i]
    {
      buf[..len]
    }

    /** `Default`: the parts of an empty standard vector, which has not allocated. */
    constructor Default()
      ensures Valid() && fresh(buf) && len == 0 && capacity == 0 && Elements() == []
    {
      buf := new T[0];
      len, capacity := 0, 0;
    }

    /** `From<std Vec>`: take over the parts of a standard vector. */
    constructor FromStd(v: StdVec<T>)
      requires |v.elements| <= v.capacity
      ensures Valid() && fresh(buf) && Elements() == v.elements && capacity == v.capacity
    {
      var a := new T[v.capacity];
      forall i | 0 <= i < |v.elements| {
        a[i] := v.elements[i];
      }
      buf := a;
      len, capacity := |v.elements|, v.capacity;
    }

    /** `From<Vec> for std Vec`: hand the parts back. */
    function IntoStd(): (r: StdVec<T>)
      reads this, buf
      requires Valid()
      ensures r.elements == Elements() && r.capacity == capacity && |r.elements| <= r.capacity
    {
      StdVec(buf[..len], capacity)
    }

    /**
     * `push`: the value goes after the last element. With room to spare the
     * buffer is kept; a full buffer is replaced by one of twice the capacity
     * (at least one slot) holding the old elements.
     */
    method Push(value: T)
      requires Valid()
      modifies this, buf
      ensures Valid()
      ensures Elements() == old(Elements()) + [value]
      ensures len == old(len) + 1 && capacity >= len
      ensures old(len) < old(capacity) ==> capacity == old(capacity) && buf == old(buf)
      ensures old(len) == old(capacity) ==> fresh(buf) && capacity == if old(capacity) == 0 then 1 else 2 * old(capacity)
    {
      if len == capacity {
        var newCapacity := if 2 * capacity > len + 1 then 2 * capacity else len + 1;
        var a := new T[newCapacity];
        var i := 0;
        while i < len
          invariant 0 <= i <= len
          invariant forall j :: 0 <= j < i ==> a[j] == buf[j]
          modifies a
        {
          a[i] := buf[i];
          i := i + 1;
        }
        buf := a;
        capacity := newCapacity;
      }
      buf[len] := value;
      len := len + 1;
    }

    /** `len`. */
    function Len(): (n: nat)
      reads this, buf
      requires Valid()
      ensures n == |Elements()|
    {
      len
    }

    /** `is_empty` as written: it answers whether the vector HAS elements. */
    predicate IsEmpty()
      reads this, buf
      requires Valid()
      ensures IsEmpty() <==> Elements() != []
    {
      len > 0
    }

    /** What `is_empty` evidently means: the vector has no elements. */
    predicate HasNoElements()
      reads this, buf
      requires Valid()
      ensures HasNoElements() <==> Elements() == []
    {
      len == 0
    }

    /** `get`: the element at `index`, or `None` past the end. */
    function Get(index: nat): (r: Option<T>)
      reads this, buf
      requires Valid()
      ensures r.None? <==> index >= |Elements()|
      ensures r.Some? ==> r.value == Elements()[index]
    {
      if index >= len then None else Some(buf[index])
    }

    /** `last`: the final element, or `None` when there is none. */
    function Last(): (r: Option<T>)
      reads this, buf
      requires Valid()
      ensures r.None? <==> Elements() == []
      ensures r.Some? ==> r.value == Elements()[|Elements()| - 1]
    {
      if len == 0 then None else Some(buf[len - 1])
    }
  }

  /** `PartialEq`: the same length and equal elements position by position; capacities do not matter. */
  predicate Equal<T(0, ==)>(a: Vec<T>, b: Vec<T>)
    reads a, a.buf, b, b.buf
    requires a.Valid() && b.Valid()
    ensures Equal(a, b) <==> a.Elements() == b.Elements()
  {
    assert a.len == b.len && (forall i :: 0 <= i < a.len ==> a.buf[i] == b.buf[i]) ==> a.Elements() == b.Elements();
    a.len == b.len && forall i :: 0 <= i < a.len ==> a.buf[i] == b.buf[i]
  }

  /** `is_empty` as written is the negation of emptiness: the empty vector claims not to be empty. */
  lemma {:induction false} IsEmptyInverted<T(0)>(v: Vec<T>)
    requires v.Valid()
    ensures v.IsEmpty() <==> !v.HasNoElements()
    ensures v.len == 0 ==> !v.IsEmpty()
  {
  }
}
