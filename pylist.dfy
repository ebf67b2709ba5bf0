/** Python's built-in list, as far as the modelled code mutates the lists its
    callers pass in: pop by position, remove by first equal value, index of
    the first equal value and item assignment. */
module PyLists {
  import opened Common

  /** Position of the first element equal to v (list.index), or None. */
  function IndexOf<T(==)>(s: seq<T>, v: T): (r: Option<nat>)
    ensures r.Some? ==> r.value < |s| && s[r.value] == v && v !in s[..r.value]
    ensures r.None? <==> v !in s
  {
    if s == [] then None
    else if s[0] == v then Some(0)
    else
      match IndexOf(s[1..], v)
      case None => None
      case Some(k) =>
        assert s[1..][..k] == s[1..k + 1];
        assert s[..k + 1] == [s[0]] + s[1..k + 1];
        Some(k + 1)
  }

  /** s without its element at position i. */
  function RemoveAt<T>(s: seq<T>, i: nat): (r: seq<T>)
    requires i < |s|
    ensures |r| == |s| - 1
    ensures forall k :: 0 <= k < i ==> r[k] == s[k]
    ensures forall k :: i <= k < |r| ==> r[k] == s[k + 1]
  {
    s[..i] + s[i + 1..]
  }

  /** A mutable Python list. */
  class PyList<T(==)> {
    var items: seq<T>

    constructor (s: seq<T>)
      ensures items == s
    {
      items := s;
    }

    /** list.pop(i) for a non-negative i: IndexError when i is out of range. */
    method Pop(i: nat) returns (r: Result<T>)
      modifies this
      ensures i < |old(items)| ==> r == Success(old(items)[i]) && items == RemoveAt(old(items), i)
      ensures i >= |old(items)| ==> r == Failure(IndexError) && items == old(items)
    {
      if i < |items| {
        r := Success(items[i]);
        items := RemoveAt(items, i);
      } else {
        r := Failure(IndexError);
      }
    }

    /** list.remove(v): drops the first element equal to v; ValueError when there is none. */
    method Remove(v: T) returns (o: Outcome)
      modifies this
      ensures IndexOf(old(items), v).None? ==> o == Fail(ValueError) && items == old(items)
      ensures IndexOf(old(items), v).Some? ==>
                o == Pass && items == RemoveAt(old(items), IndexOf(old(items), v).value)
    {
      match IndexOf(items, v)
      case None =>
        o := Fail(ValueError);
      case Some(k) =>
        items := RemoveAt(items, k);
        o := Pass;
    }

    /** list.index(v): the first position holding v; ValueError when there is none. */
    method Index(v: T) returns (r: Result<nat>)
      ensures IndexOf(items, v).None? ==> r == Failure(ValueError)
      ensures IndexOf(items, v).Some? ==> r == Success(IndexOf(items, v).value)
    {
      match IndexOf(items, v)
      case None =>
        r := Failure(ValueError);
      case Some(k) =>
        r := Success(k);
    }

    /** list[i] = v for a non-negative i: IndexError when i is out of range. */
    method SetItem(i: nat, v: T) returns (o: Outcome)
      modifies this
      ensures i < |old(items)| ==> o == Pass && items == old(items)[i := v]
      ensures i >= |old(items)| ==> o == Fail(IndexError) && items == old(items)
    {
      if i < |items| {
        items := items[i := v];
        o := Pass;
      } else {
        o := Fail(IndexError);
      }
    }
  }
}
