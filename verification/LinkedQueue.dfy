/** The singly linked list that both the lock server and the client queue in. */
module LinkedQueue {

  class Node<T> {
    const value: T
    var next: Node?<T>

    constructor (value: T)
      ensures this.value == value && next == null
    {
      this.value := value;
      next := null;
    }
  }

  class Queue<T> {
    var sizeOfQueue: nat
    var head: Node?<T>
    var tail: Node?<T>
    // The nodes from head to tail.
    ghost var spine: seq<Node<T>>
    ghost var contents: seq<T>

    ghost predicate Valid()
      reads this, spine
    {
      && sizeOfQueue == |spine| == |contents|
      && (forall i | 0 <= i < |spine| :: contents[i] == spine[i].value)
      && (forall i, j | 0 <= i < j < |spine| :: spine[i] != spine[j])
      && (forall i | 0 <= i < |spine| - 1 :: spine[i].next == spine[i + 1])
      && if spine == [] then head == null && tail == null
         else head == spine[0] && tail == spine[|spine| - 1] && spine[|spine| - 1].next == null
    }

    constructor ()
      ensures Valid() && contents == [] && spine == []
    {
      sizeOfQueue := 0;
      head := null;
      tail := null;
      spine, contents := [], [];
    }

    method Enqueue(value: T)
      requires Valid()
      modifies this, spine
      ensures Valid() && contents == old(contents) + [value]
      ensures |spine| == |old(spine)| + 1 && spine[..|old(spine)|] == old(spine) && fresh(spine[|old(spine)|])
    {
      var node := new Node(value);
      if sizeOfQueue == 0 {
        head := node;
        tail := node;
      } else {
        tail.next := node;
        tail := node;
      }
      sizeOfQueue := sizeOfQueue + 1;
      spine, contents := spine + [node], contents + [value];
    }

    // The source leaves its outputs unset on an empty queue.
    method Dequeue() returns (value: T)
      requires Valid() && contents != []
      modifies this
      ensures Valid() && value == old(contents)[0] && contents == old(contents)[1..]
      ensures spine == old(spine)[1..]
    {
      value := head.value;
      if sizeOfQueue > 1 {
        head := head.next;
      } else {
        head := null;
        tail := null;
      }
      sizeOfQueue := sizeOfQueue - 1;
      spine, contents := spine[1..], contents[1..];
    }

    method Clear()
      requires Valid()
      modifies this
      ensures Valid() && contents == [] && spine == []
    {
      ghost var nodes := spine;
      while sizeOfQueue > 0
        invariant sizeOfQueue <= |nodes|
        invariant sizeOfQueue > 0 ==> head == nodes[|nodes| - sizeOfQueue]
        invariant forall i | 0 <= i < |nodes| - 1 :: nodes[i].next == nodes[i + 1]
      {
        head := head.next;
        sizeOfQueue := sizeOfQueue - 1;
      }
      head := null;
      tail := null;
      spine, contents := [], [];
    }

    // The node k places behind the head, or null behind the last one.
    ghost predicate At(ptr: Node?<T>, k: nat)
      reads this
    {
      k <= |spine| && ptr == if k < |spine| then spine[k] else null
    }

    // Following next from one place leads to the following place.
    lemma NextIsAt(ptr: Node<T>, k: nat)
      requires Valid() && At(ptr, k)
      ensures k < |spine| && At(ptr.next, k + 1)
    {
    }
  }
}
