/** The queue of queue.h as one thread sees it. `QueueThreads` looks at its locks. */
module Queues {
  class Queue<T> {
    var items: seq<T>

    constructor ()
      ensures items == []
    {
      items := [];
    }

    method PushBack(item: T)
      modifies this
      ensures items == old(items) + [item]
    {
      items := items + [item];
    }

    /** The front is read and removed under one lock; there has to be one. */
    method PopFront() returns (item: T)
      requires items != []
      modifies this
      ensures [item] + items == old(items)
    {
      item := items[0];
      items := items[1..];
    }

    method Front() returns (item: T)
      requires items != []
      ensures item == items[0]
    {
      item := items[0];
    }

    method IsEmpty() returns (empty: bool)
      ensures empty <==> items == []
    {
      empty := |items| == 0;
    }
  }

  /** The loop of `ServerInterface::Update`: `taken` are the messages it hands to `OnMessage`. */
  method TakeUpTo<T>(queue: Queue<T>, maxMessages: nat) returns (taken: seq<T>)
    modifies queue
    ensures taken + queue.items == old(queue.items)
    ensures |taken| == if |old(queue.items)| < maxMessages then |old(queue.items)| else maxMessages
  {
    taken := [];
    var empty := queue.IsEmpty();
    while |taken| < maxMessages && !empty
      invariant taken + queue.items == old(queue.items) && |taken| <= maxMessages
      invariant empty <==> queue.items == []
      decreases |queue.items|
    {
      var item := queue.PopFront();
      taken := taken + [item];
      empty := queue.IsEmpty();
    }
  }
}
