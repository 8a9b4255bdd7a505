/** The doubly linked list that the page tables stand on: nodes in the heap, linked both ways, acting as a sequence. */
module LinkedList {
  import opened Options

  class Node<T> {
    var prev: Node?<T>
    var next: Node?<T>
    var data: T

    constructor (data: T)
      ensures prev == null && next == null && this.data == data
    {
      prev, next, this.data := null, null, data;
    }
  }

  /** What stands at a place of a row of nodes: null before the first and after the last. */
  function NodeAt<T>(nodes: seq<Node<T>>, i: int): Node?<T> {
    if 0 <= i < |nodes| then nodes[i] else null
  }

  ghost predicate LinkedAt<T>(nodes: seq<Node<T>>, i: nat)
    requires i < |nodes|
    reads nodes
  {
    nodes[i].next == NodeAt(nodes, i + 1) && nodes[i].prev == NodeAt(nodes, i - 1)
  }

  ghost predicate Distinct<T>(nodes: seq<Node<T>>) {
    forall i, j | 0 <= i < j < |nodes| :: nodes[i] != nodes[j]
  }

  lemma InsertedDistinct<T>(row: seq<Node<T>>, k: nat, node: Node<T>)
    requires Distinct(row) && k <= |row| && node !in row
    ensures Distinct(row[..k] + [node] + row[k..])
  {
  }

  lemma RemovedDistinct<T>(row: seq<Node<T>>, k: nat)
    requires Distinct(row) && k < |row|
    ensures Distinct(row[..k] + row[k + 1..])
  {
  }

  /** The forward and backward links of the nodes are those of the row, so each is the inverse of the other. */
  ghost predicate Linked<T>(nodes: seq<Node<T>>)
    reads nodes
  {
    Distinct(nodes) && forall i: nat | i < |nodes| :: LinkedAt(nodes, i)
  }

  ghost function Datas<T>(nodes: seq<Node<T>>): (d: seq<T>)
    reads nodes
    ensures |d| == |nodes| && forall i | 0 <= i < |d| :: d[i] == nodes[i].data
  {
    seq(|nodes|, i requires 0 <= i < |nodes| reads nodes => nodes[i].data)
  }

  /** Everything but the links into place `k` from its two neighbours is as it was. */
  twostate predicate OnlyAround<T>(row: seq<Node<T>>, new k: nat, new after: nat)
    reads row
  {
    && (forall j | 0 <= j < |row| && j != after :: row[j].prev == old(row[j].prev))
    && (forall j | 0 <= j < |row| && j + 1 != k :: row[j].next == old(row[j].next))
  }

  /** A node linked with the neighbours of a place makes the row with that node inserted there. */
  twostate lemma InsertedLinks<T>(row: seq<Node<T>>, new k: nat, new node: Node<T>)
    requires old(Linked(row)) && k <= |row| && node !in row
    requires node.next == NodeAt(row, k) && node.prev == NodeAt(row, k - 1)
    requires (k < |row| ==> row[k].prev == node) && (k > 0 ==> row[k - 1].next == node) && OnlyAround(row, k, k)
    ensures Linked(row[..k] + [node] + row[k..])
  {
    var nodes := row[..k] + [node] + row[k..];
    InsertedDistinct(row, k, node);
    hide Distinct;
    forall i: nat | i < |nodes| ensures LinkedAt(nodes, i) {
      if i != k {
        var j := if i < k then i else i - 1;
        assert nodes[i] == row[j] && old(LinkedAt(row, j));
        assert NodeAt(nodes, i + 1) == if j + 1 == k then node else NodeAt(row, j + 1);
        assert NodeAt(nodes, i - 1) == if j == k then node else NodeAt(row, j - 1);
      }
    }
  }

  /** Neighbours linked with each other make the row without the node that was between them. */
  twostate lemma RemovedLinks<T>(row: seq<Node<T>>, new k: nat)
    requires old(Linked(row)) && k < |row|
    requires (k + 1 < |row| ==> row[k + 1].prev == NodeAt(row, k - 1))
      && (k > 0 ==> row[k - 1].next == NodeAt(row, k + 1))
    requires OnlyAround(row, k, k + 1)
    ensures Linked(row[..k] + row[k + 1..])
  {
    var nodes := row[..k] + row[k + 1..];
    RemovedDistinct(row, k);
    hide Distinct;
    forall i: nat | i < |nodes| ensures LinkedAt(nodes, i) {
      var j := if i < k then i else i + 1;
      assert nodes[i] == row[j] && old(LinkedAt(row, j));
      assert NodeAt(nodes, i + 1) == if j + 1 == k then NodeAt(row, k + 1) else NodeAt(row, j + 1);
      assert NodeAt(nodes, i - 1) == if j == k + 1 then NodeAt(row, k - 1) else NodeAt(row, j - 1);
    }
  }

  lemma InsertedDatas<T>(row: seq<Node<T>>, k: nat, node: Node<T>)
    requires k <= |row|
    ensures Datas(row[..k] + [node] + row[k..]) == Datas(row)[..k] + [node.data] + Datas(row)[k..]
  {
  }

  lemma RemovedDatas<T>(row: seq<Node<T>>, k: nat)
    requires k < |row|
    ensures Datas(row[..k] + row[k + 1..]) == Datas(row)[..k] + Datas(row)[k + 1..]
  {
  }

  twostate lemma SameDatas<T>(row: seq<Node<T>>)
    requires forall j | 0 <= j < |row| :: row[j].data == old(row[j].data)
    ensures Datas(row) == old(Datas(row))
  {
  }

  /** The case of the first node, with nothing before it. */
  twostate lemma FirstUnlinked<T>(row: seq<Node<T>>)
    requires old(Linked(row)) && |row| > 0 && (|row| > 1 ==> row[1].prev == null)
    requires forall j | 0 <= j < |row| :: row[j].data == old(row[j].data) && row[j].next == old(row[j].next)
    requires forall j | 0 <= j < |row| && j != 1 :: row[j].prev == old(row[j].prev)
    ensures Linked(row[1..]) && Datas(row[1..]) == old(Datas(row))[1..]
  {
    assert row[1..] == row[..0] + row[0 + 1..];
    RemovedLinks(row, 0);
    RemovedDatas(row, 0);
    SameDatas(row);
    assert Datas(row)[..0] + Datas(row)[0 + 1..] == Datas(row)[1..];
  }

  class List<T> {
    var first: Node?<T>
    var last: Node?<T>
    var size: nat
    ghost var nodes: seq<Node<T>>

    ghost predicate Valid()
      reads this, nodes
    {
      && size == |nodes| && Linked(nodes)
      && first == NodeAt(nodes, 0) && last == NodeAt(nodes, |nodes| - 1)
    }

    /** The list as a sequence. */
    ghost function Contents(): seq<T>
      reads this, nodes
    {
      Datas(nodes)
    }

    lemma NextOf(i: nat)
      requires Valid() && i < |nodes|
      ensures nodes[i].next == NodeAt(nodes, i + 1)
    {
      assert LinkedAt(nodes, i);
    }

    constructor ()
      ensures Valid() && nodes == [] && Contents() == []
    {
      first, last, size, nodes := null, null, 0, [];
    }

    method IsEmpty() returns (empty: bool)
      requires Valid()
      ensures empty <==> Contents() == []
    {
      empty := size == 0;
    }

    method PushFront(x: T)
      requires Valid()
      modifies this, nodes
      ensures Valid() && Contents() == [x] + old(Contents())
      ensures nodes == [nodes[0]] + old(nodes) && fresh(nodes[0])
    {
      ghost var row := nodes;
      var node := new Node(x);
      if size == 0 {
        first, last := node, node;
      } else {
        node.next := first;
        first.prev := node;
        first := node;
      }
      size := size + 1;
      nodes := [node] + row;
      SameDatas(row);
      InsertedLinks(row, 0, node);
      InsertedDatas(row, 0, node);
      assert nodes == row[..0] + [node] + row[0..];
      hide Linked, Datas, Distinct;
    }

    method PushBack(x: T)
      requires Valid()
      modifies this, nodes
      ensures Valid() && Contents() == old(Contents()) + [x]
      ensures nodes == old(nodes) + [nodes[|nodes| - 1]] && fresh(nodes[|nodes| - 1])
    {
      ghost var row := nodes;
      var node := new Node(x);
      if size == 0 {
        first, last := node, node;
      } else {
        node.prev := last;
        last.next := node;
        last := node;
      }
      size := size + 1;
      nodes := row + [node];
      SameDatas(row);
      InsertedLinks(row, |row|, node);
      InsertedDatas(row, |row|, node);
      assert nodes == row[..|row|] + [node] + row[|row|..];
      hide Linked, Datas, Distinct;
    }

    /** Links a new node before the one at an inner place. */
    method LinkBefore(aux: Node<T>, x: T, ghost k: nat)
      requires Valid() && 0 < k < |nodes| && aux == nodes[k]
      modifies this, nodes
      ensures Valid() && Contents() == old(Contents()[..k] + [x] + Contents()[k..])
      ensures nodes == old(nodes[..k]) + [nodes[k]] + old(nodes[k..]) && fresh(nodes[k])
    {
      ghost var row := nodes;
      assert LinkedAt(row, k);
      var node := new Node(x);
      node.next := aux;
      node.prev := aux.prev;
      aux.prev.next := node;
      aux.prev := node;
      size := size + 1;
      nodes := row[..k] + [node] + row[k..];
      SameDatas(row);
      InsertedLinks(row, k, node);
      InsertedDatas(row, k, node);
      hide Linked, Datas, Distinct;
    }

    /** Unlinks the node at an inner place. */
    method Unlink(node: Node<T>, ghost k: nat) returns (x: T)
      requires Valid() && 0 < k < |nodes| - 1 && node == nodes[k]
      modifies this, nodes
      ensures Valid() && x == old(Contents()[k]) && Contents() == old(Contents()[..k] + Contents()[k + 1..])
      ensures nodes == old(nodes[..k] + nodes[k + 1..])
    {
      ghost var row := nodes;
      assert LinkedAt(row, k);
      node.next.prev := node.prev;
      node.prev.next := node.next;
      x := node.data;
      size := size - 1;
      nodes := row[..k] + row[k + 1..];
      SameDatas(row);
      RemovedLinks(row, k);
      RemovedDatas(row, k);
      hide Linked, Datas, Distinct;
    }

    /** Inserts at an index; an index past the end inserts nothing. */
    method PushAt(index: nat, x: T) returns (done: bool)
      requires Valid()
      modifies this, nodes
      ensures Valid() && done == (index <= old(|nodes|))
      ensures Contents() == if done then old(Contents())[..index] + [x] + old(Contents())[index..] else old(Contents())
      ensures if done then nodes == old(nodes)[..index] + [nodes[index]] + old(nodes)[index..] && fresh(nodes[index])
              else nodes == old(nodes)
    {
      hide Linked, Datas, Distinct;
      if index == 0 {
        PushFront(x);
        return true;
      }
      if index == size {
        PushBack(x);
        return true;
      }
      if index < size {
        var aux, i := first, 0;
        while aux != null
          invariant i <= index < |nodes| && aux == nodes[i]
          invariant Valid() && nodes == old(nodes) && Contents() == old(Contents())
          decreases |nodes| - i
        {
          if index == i {
            LinkBefore(aux, x, index);
            return true;
          }
          NextOf(i);
          aux := aux.next;
          i := i + 1;
        }
      }
      return false;
    }

    /** Inserts before an iterator; one that is null or not of this list inserts nothing. */
    method PushIter(iter: Node?<T>, x: T) returns (done: bool, ghost k: nat)
      requires Valid() && (iter != null ==> size > 0)
      modifies this, nodes
      ensures Valid() && (done <==> iter != null && iter in old(nodes))
      ensures done ==> k < |old(nodes)| && old(nodes)[k] == iter
      ensures done ==> Contents() == old(Contents())[..k] + [x] + old(Contents())[k..]
      ensures done ==>
        k < |nodes| && fresh(nodes[k]) && nodes == old(nodes)[..k] + [nodes[k]] + old(nodes)[k..]
      ensures !done ==> nodes == old(nodes) && Contents() == old(Contents())
    {
      hide Linked, Datas, Distinct;
      done, k := false, 0;
      if iter != null {
        if iter == first {
          PushFront(x);
          return true, 0;
        }
        if iter == last {
          k := |nodes| - 1;
          LinkBefore(last, x, k);
          return true, k;
        }
        NextOf(0);
        var aux := first.next;
        k := 1;
        while aux != null
          invariant 1 <= k <= |nodes| && aux == NodeAt(nodes, k) && iter !in nodes[..k]
          invariant Valid() && nodes == old(nodes) && Contents() == old(Contents())
          decreases |nodes| - k
        {
          if aux == iter {
            LinkBefore(aux, x, k);
            return true, k;
          }
          NextOf(k);
          aux := aux.next;
          k := k + 1;
        }
      }
    }

    method PopFront() returns (x: Option<T>)
      requires Valid()
      modifies this, nodes
      ensures Valid()
      ensures if old(nodes) == [] then x == None && nodes == []
        else x == Some(old(Contents())[0]) && nodes == old(nodes)[1..] && Contents() == old(Contents())[1..]
    {
      if size == 0 {
        return None;
      }
      ghost var row := nodes;
      var node := first;
      NextOf(0);
      if size == 1 {
        first, last := null, null;
      } else {
        first := first.next;
        first.prev := null;
      }
      x := Some(node.data);
      size := size - 1;
      nodes := row[1..];
      FirstUnlinked(row);
      hide Linked, Datas, Distinct;
    }

    method PopBack() returns (x: Option<T>)
      requires Valid()
      modifies this, nodes
      ensures Valid()
      ensures if old(nodes) == [] then x == None && nodes == []
        else var n := |old(nodes)| - 1;
          x == Some(old(Contents())[n]) && nodes == old(nodes)[..n] && Contents() == old(Contents())[..n]
    {
      if size == 0 {
        return None;
      }
      ghost var row := nodes;
      ghost var n := |row| - 1;
      var node := last;
      assert LinkedAt(row, n);
      if size == 1 {
        last, first := null, null;
      } else {
        last := last.prev;
        last.next := null;
      }
      x := Some(node.data);
      size := size - 1;
      nodes := row[..n];
      assert nodes == row[..n] + row[n + 1..];
      assert OnlyAround(row, n, n + 1);
      SameDatas(row);
      hide Linked, Datas, Distinct, OnlyAround;
      RemovedLinks(row, n);
      RemovedDatas(row, n);
    }

    /** Removes the element at an index and answers it; answers nothing for an index past the end. */
    method PopAt(index: nat) returns (x: Option<T>)
      requires Valid()
      modifies this, nodes
      ensures Valid()
      ensures index >= |old(nodes)| ==> x == None && nodes == old(nodes) && Contents() == old(Contents())
      ensures index < |old(nodes)| ==>
        && x == Some(old(Contents())[index]) && nodes == old(nodes)[..index] + old(nodes)[index + 1..]
        && Contents() == old(Contents())[..index] + old(Contents())[index + 1..]
    {
      hide Linked, Datas, Distinct;
      x := None;
      if size != 0 && index < size {
        if index == 0 {
          x := PopFront();
          return;
        }
        if index == size - 1 {
          x := PopBack();
          return;
        }
        var node, i := first, 0;
        while node != null
          invariant i <= index < |nodes| && node == nodes[i] && x == None
          invariant Valid() && nodes == old(nodes) && Contents() == old(Contents())
          decreases |nodes| - i
        {
          if index == i {
            var data := Unlink(node, index);
            return Some(data);
          }
          NextOf(i);
          node := node.next;
          i := i + 1;
        }
      }
    }

    /** Removes the element an iterator is at; one that is null or not of this list removes nothing. */
    method PopIter(iter: Node?<T>) returns (x: Option<T>, ghost k: nat)
      requires Valid()
      modifies this, nodes
      ensures Valid()
      ensures if iter == null || iter !in old(nodes)
        then x == None && nodes == old(nodes) && Contents() == old(Contents())
        else (
          && k < |old(nodes)| && old(nodes)[k] == iter && x == Some(old(Contents())[k])
          && nodes == old(nodes)[..k] + old(nodes)[k + 1..]
          && Contents() == old(Contents())[..k] + old(Contents())[k + 1..])
    {
      hide Linked, Datas, Distinct;
      x, k := None, 0;
      if size != 0 && iter != null {
        if iter == first {
          x := PopFront();
          return;
        }
        if iter == last {
          k := |nodes| - 1;
          x := PopBack();
          return;
        }
        var node := first;
        while node != null
          invariant k <= |nodes| && node == NodeAt(nodes, k) && iter !in nodes[..k] && x == None
          invariant Valid() && nodes == old(nodes) && Contents() == old(Contents())
          decreases |nodes| - k
        {
          if iter == node {
            var data := Unlink(node, k);
            return Some(data), k;
          }
          NextOf(k);
          node := node.next;
          k := k + 1;
        }
      }
    }

    method Front() returns (x: Option<T>)
      requires Valid()
      ensures x == if Contents() == [] then None else Some(Contents()[0])
    {
      x := if size != 0 then Some(first.data) else None;
    }

    method Back() returns (x: Option<T>)
      requires Valid()
      ensures x == if Contents() == [] then None else Some(Contents()[|nodes| - 1])
    {
      x := if size != 0 then Some(last.data) else None;
    }

    /** The element at an index, when there is one. */
    method At(index: nat) returns (x: Option<T>)
      requires Valid()
      ensures x == if index < |Contents()| then Some(Contents()[index]) else None
    {
      x := None;
      if size != 0 && index < size {
        if index == 0 {
          x := Front();
          return;
        }
        if index == size - 1 {
          x := Back();
          return;
        }
        var node, i := first, 0;
        while node != null
          invariant i <= index < |nodes| && node == nodes[i] && x == None
          decreases |nodes| - i
        {
          if index == i {
            return Some(node.data);
          }
          NextOf(i);
          node := node.next;
          i := i + 1;
        }
      }
    }

    /** Pops every element. */
    method Empty()
      requires Valid()
      modifies this, nodes
      ensures Valid() && Contents() == []
    {
      hide Linked, Datas, Distinct;
      ghost var row := nodes;
      while size != 0
        invariant Valid() && size <= |row| && nodes == row[|row| - size..]
        decreases size
      {
        var x := PopFront();
      }
    }
  }

  /** Following `next` from any node and then `prev` comes back to it, and the other way round. */
  lemma LinksAreInverse<T>(list: List<T>, node: Node<T>)
    requires list.Valid() && node in list.nodes
    ensures node.next != null ==> node.next in list.nodes && node.next.prev == node
    ensures node.prev != null ==> node.prev in list.nodes && node.prev.next == node
    ensures node.next == null <==> node == list.last
    ensures node.prev == null <==> node == list.first
  {
    var i :| 0 <= i < |list.nodes| && list.nodes[i] == node;
    assert LinkedAt(list.nodes, i);
    assert i + 1 < |list.nodes| ==> LinkedAt(list.nodes, i + 1);
    assert i > 0 ==> LinkedAt(list.nodes, i - 1);
  }

  /** The data met from a node on by following `next`, at most `fuel` nodes. */
  ghost function Forward<T>(node: Node?<T>, fuel: nat): seq<T>
    reads *
  {
    if node == null || fuel == 0 then [] else [node.data] + Forward(node.next, fuel - 1)
  }

  /** Walking `next` from a place meets the rest of the sequence: all of it from the first node. */
  lemma {:induction false} WalkFrom<T>(list: List<T>, i: nat)
    requires list.Valid() && i <= |list.nodes|
    ensures Forward(NodeAt(list.nodes, i), |list.nodes| - i) == list.Contents()[i..]
    decreases |list.nodes| - i
  {
    if i < |list.nodes| {
      assert LinkedAt(list.nodes, i);
      WalkFrom(list, i + 1);
      assert list.Contents()[i..] == [list.Contents()[i]] + list.Contents()[i + 1..];
    }
  }

  /** The data met from a node on by following `prev`, the last met first. */
  ghost function Backward<T>(node: Node?<T>, fuel: nat): seq<T>
    reads *
  {
    if node == null || fuel == 0 then [] else Backward(node.prev, fuel - 1) + [node.data]
  }

  /** Walking `prev` from a place meets the sequence before it, backwards: all of it from the last node. */
  lemma {:induction false} WalkBack<T>(list: List<T>, i: nat)
    requires list.Valid() && i <= |list.nodes|
    ensures Backward(NodeAt(list.nodes, i - 1), i) == list.Contents()[..i]
  {
    if i > 0 {
      assert LinkedAt(list.nodes, i - 1);
      WalkBack(list, i - 1);
      assert list.Contents()[..i] == list.Contents()[..i - 1] + [list.Contents()[i - 1]];
    }
  }
}
