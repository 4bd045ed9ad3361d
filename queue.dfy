/** A first-in first-out queue whose items are held in a sequence that
    `Enqueue` extends at the back and `Dequeue` shortens at the front. */
module Queues {

  import opened Wrappers

  class Queue<T> {
    /** The stored items, oldest first. */
    var items: seq<T>

    /** A queue holding `items` (empty when no argument is given). */
    constructor (items: seq<T> := [])
      ensures this.items == items
    {
      this.items := items;
    }

    /** Adds `item` at the back; everything already queued keeps its place. */
    method Enqueue(item: T)
      modifies this
      ensures items == old(items) + [item]
      ensures Size() == old(Size()) + 1
    {
      items := items + [item];
    }

    /** Removes and returns the front item; on an empty queue returns `None`
        and leaves the queue empty. */
    method Dequeue() returns (front: Option<T>)
      modifies this
      ensures old(items) == [] ==> front == None && items == []
      ensures old(items) != [] ==> front == Some(old(items)[0]) && items == old(items)[1..]
    {
      if items == [] {
        front := None;
      } else {
        front := Some(items[0]);
        items := items[1..];
      }
    }

    /** The front item without removing it, or `None` when the queue is empty. */
    function Peek(): (front: Option<T>)
      reads this
      ensures front.Some? <==> items != []
      ensures front.Some? ==> front.value == items[0]
    {
      if items == [] then None else Some(items[0])
    }

    /** Whether the queue holds no items. */
    function IsEmpty(): (empty: bool)
      reads this
      ensures empty <==> Size() == 0
      ensures empty <==> items == []
    {
      |items| == 0
    }

    /** The number of stored items. */
    function Size(): (n: nat)
      reads this
    {
      |items|
    }
  }

  /** A caller that builds a queue from `initial`, queues `xs` one by one and
      then dequeues until the queue is empty receives `initial` followed by
      `xs`, each in its original order (first in, first out). */
  method FirstInFirstOut<T>(initial: seq<T>, xs: seq<T>) returns (out: seq<T>)
    ensures out == initial + xs
  {
    var q := new Queue(initial);
    var i := 0;
    while i < |xs|
      invariant 0 <= i <= |xs|
      invariant q.items == initial + xs[..i]
    {
      q.Enqueue(xs[i]);
      i := i + 1;
    }
    out := [];
    while !q.IsEmpty()
      invariant out + q.items == initial + xs
      decreases |q.items|
    {
      var front := q.Dequeue();
      out := out + [front.value];
    }
  }
}
