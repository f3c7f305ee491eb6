/** The FIFO of src/lib/Queue.hpp that carries notifications to a client session. */
module SessionQueues {

  class Queue<T> {
    var items: seq<T>
    ghost var log: seq<T>      // everything that was ever inserted
    ghost var taken: seq<T>    // everything that was ever removed

    ghost predicate Valid()
      reads this
    {
      log == taken + items
    }

    constructor ()
      ensures Valid() && items == [] && log == []
    {
      items, log, taken := [], [], [];
    }

    method Insert(element: T)
      requires Valid()
      modifies this
      ensures Valid() && log == old(log) + [element] && taken == old(taken)
      ensures items == old(items) + [element]
    {
      items := items + [element];
      log := log + [element];
    }

    /** Waits while the queue is empty, so it returns only when it is not. */
    method Remove() returns (element: T)
      requires Valid() && items != []
      modifies this
      ensures Valid() && taken == old(taken) + [element] && log == old(log)
      ensures element == old(items)[0] && items == old(items)[1..]
    {
      element := items[0];
      items := items[1..];
      taken := taken + [element];
    }
  }
}
