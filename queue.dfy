/**
 * The linked FIFO queue (src/utils/dataStructures/queue.ts), with the list
 * node of src/utils/dataStructures/linkedList.ts folded in.
 */
module DataStructures {
  import opened Wrappers

  /** A list item: its data and links to the neighbouring items. */
  class Node<T> {
    var data: T
    var prev: Node?<T>
    var next: Node?<T>

    constructor (data: T)
      ensures this.data == data && prev == null && next == null
    {
      this.data := data;
      prev := null;
      next := null;
    }
  }

  class Queue<T> {
    var head: Node?<T>
    var tail: Node?<T>
    var size: nat
    /** The items from head to tail. */
    ghost var nodes: seq<Node<T>>
    /** The data from head to tail: oldest first. */
    ghost var Contents: seq<T>
    ghost var Repr: set<object>

    ghost predicate Valid()
      reads this, Repr
    {
      && this in Repr
      && (forall i :: 0 <= i < |nodes| ==> nodes[i] in Repr)
      && size == |nodes| == |Contents|
      && (forall i :: 0 <= i < |nodes| ==> nodes[i].data == Contents[i])
      && (forall i, j :: 0 <= i < j < |nodes| ==> nodes[i] != nodes[j])
      && (nodes == [] ==> head == null && tail == null)
      && (nodes != [] ==>
            && head == nodes[0] && tail == nodes[|nodes| - 1]
            && head.prev == null && tail.next == null)
      && (forall i :: 0 <= i < |nodes| - 1 ==> nodes[i].next == nodes[i + 1] && nodes[i + 1].prev == nodes[i])
    }

    constructor ()
      ensures Valid() && fresh(Repr) && Contents == []
    {
      head := null;
      tail := null;
      size := 0;
      nodes := [];
      Contents := [];
      Repr := {this};
    }

    /** The `size` getter: the number of queued items. */
    function Size(): (n: nat)
      reads this, Repr
      requires Valid()
      ensures n == |Contents|
    {
      size
    }

    /** enq: links a new item after the tail. */
    method Enq(data: T)
      requires Valid()
      modifies Repr
      ensures Valid() && fresh(Repr - old(Repr))
      ensures Contents == old(Contents) + [data]
      ensures size == old(size) + 1
    {
      var item := new Node(data);
      if head == null {
        head := item;
      }
      var prevItem := tail;
      if prevItem != null {
        prevItem.next := item;
        item.prev := prevItem;
      }
      tail := item;
      size := size + 1;
      nodes := nodes + [item];
      Contents := Contents + [data];
      Repr := Repr + {item};
    }

    /** deq: unlinks and returns the head item's data; None on an empty queue. */
    method Deq() returns (r: Option<T>)
      requires Valid()
      modifies Repr
      ensures Valid() && Repr == old(Repr)
      ensures old(Contents) == [] ==> r == None && Contents == []
      ensures old(Contents) != [] ==> r == Some(old(Contents)[0]) && Contents == old(Contents)[1..]
      ensures Contents == [] ==> head == null && tail == null
    {
      if size == 0 {
        return None;
      }
      var current := head;
      var nextItem := current.next;
      assert |nodes| == 1 ==> nextItem == null;
      assert |nodes| > 1 ==> nextItem == nodes[1];
      if nextItem != null {
        nextItem.prev := null;
      }
      head := nextItem;
      size := size - 1;
      if size == 0 {
        tail := null;
      }
      nodes := nodes[1..];
      Contents := Contents[1..];
      return Some(current.data);
    }
  }

  /** Two enqueues then two dequeues give the items back in FIFO order. */
  method FifoOrder<T>(x: T, y: T) returns (first: Option<T>, second: Option<T>, third: Option<T>)
    ensures first == Some(x) && second == Some(y) && third == None
  {
    var q := new Queue<T>();
    q.Enq(x);
    q.Enq(y);
    first := q.Deq();
    second := q.Deq();
    third := q.Deq();
  }
}
