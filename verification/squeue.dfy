/** The queue that the kernel's threads share. Each operation runs under the queue's mutex, so it is one step. */
module SafeQueue {
  import opened Options

  /** Where ordered insertion puts `x`: before the first element it outranks, or at the end. */
  function Position<T>(q: seq<T>, x: T, comparer: (T, T) -> int): (k: nat)
    ensures k <= |q|
    ensures forall i | 0 <= i < k :: comparer(x, q[i]) != 1
    ensures k < |q| ==> comparer(x, q[k]) == 1
  {
    if |q| == 0 || comparer(x, q[0]) == 1 then 0 else 1 + Position(q[1..], x, comparer)
  }

  /** The queue with `x` inserted at its position. */
  function Inserted<T>(q: seq<T>, x: T, comparer: (T, T) -> int): seq<T> {
    var k := Position(q, x, comparer);
    q[..k] + [x] + q[k..]
  }

  lemma {:induction false} PositionIs<T>(q: seq<T>, x: T, comparer: (T, T) -> int, k: nat)
    requires k <= |q| && (forall i | 0 <= i < k :: comparer(x, q[i]) != 1)
    requires k < |q| ==> comparer(x, q[k]) == 1
    ensures Position(q, x, comparer) == k
  {
    if k > 0 {
      PositionIs(q[1..], x, comparer, k - 1);
    }
  }

  class SQueue<T> {
    var elements: seq<T>

    constructor ()
      ensures elements == []
    {
      elements := [];
    }

    method Size() returns (n: nat)
      ensures n == |elements|
    {
      n := 0;
      if |elements| != 0 {
        n := |elements|;
      }
    }

    method IsEmpty() returns (empty: bool)
      ensures empty <==> elements == []
    {
      empty := |elements| == 0;
    }

    method Peek() returns (x: Option<T>)
      ensures x == if elements == [] then None else Some(elements[0])
    {
      x := if |elements| == 0 then None else Some(elements[0]);
    }

    method Push(x: T)
      modifies this
      ensures elements == old(elements) + [x]
    {
      elements := elements + [x];
    }

    /** Takes the oldest element; answers nothing when there is none. */
    method Pop() returns (x: Option<T>)
      modifies this
      ensures if old(elements) == [] then x == None && elements == []
              else x == Some(old(elements[0])) && old(elements) == [x.value] + elements
    {
      if |elements| == 0 {
        return None;
      }
      x := Some(elements[0]);
      elements := elements[1..];
    }

    method Insert(x: T, index: nat)
      requires index <= |elements|
      modifies this
      ensures elements == old(elements[..index]) + [x] + old(elements[index..])
    {
      elements := elements[..index] + [x] + elements[index..];
    }

    /** Removes the first element that matches, and answers it. */
    method Remove(x: T, matches: (T, T) -> bool) returns (found: Option<T>)
      modifies this
      ensures found.None? ==> elements == old(elements) && forall y | y in elements :: !matches(x, y)
      ensures found.Some? ==> matches(x, found.value) && (exists i | 0 <= i < |old(elements)| ::
        && old(elements)[i] == found.value && (forall j | 0 <= j < i :: !matches(x, old(elements)[j]))
        && elements == old(elements)[..i] + old(elements)[i + 1..])
    {
      var i := 0;
      while i < |elements| && !matches(x, elements[i])
        invariant i <= |elements|
        invariant forall j | 0 <= j < i :: !matches(x, elements[j])
      {
        i := i + 1;
      }
      if i < |elements| {
        found := Some(elements[i]);
        elements := elements[..i] + elements[i + 1..];
      } else {
        found := None;
      }
    }

    /** Changes an element in place, as whoever holds a reference to it can. */
    method Update(k: nat, x: T)
      requires k < |elements|
      modifies this
      ensures elements == old(elements)[k := x]
    {
      elements := elements[k := x];
    }

    /** Inserts `x` before the first element that it outranks, or at the end; answers its place. */
    method InsertInOrder(x: T, comparer: (T, T) -> int) returns (k: nat)
      modifies this
      ensures elements == Inserted(old(elements), x, comparer) && k == Position(old(elements), x, comparer)
    {
      var index := -1;
      if |elements| == 0 {
        elements := elements + [x];
        k := 0;
      } else {
        var i := 0;
        while i < |elements|
          invariant 0 <= i <= |elements| && index == -1
          invariant forall j | 0 <= j < i :: comparer(x, elements[j]) != 1
        {
          if comparer(x, elements[i]) == 1 {
            index := i;
            break;
          }
          i := i + 1;
        }
        PositionIs(elements, x, comparer, i);
        k := i;
        if index >= 0 {
          elements := elements[..index] + [x] + elements[index..];
        } else {
          elements := elements + [x];
        }
      }
    }
  }
}
