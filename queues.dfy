/** The FIFO queues the pipeline's stages share (`multiprocessing.Queue`,
    `queue.Queue`), seen one operation at a time. */
module Queues {

  class Queue<T> {
    /** The queued items, oldest first. */
    var items: seq<T>

    constructor ()
      ensures items == []
    {
      items := [];
    }

    /** `put`: append at the back. */
    method Put(x: T)
      modifies this
      ensures items == old(items) + [x]
    {
      items := items + [x];
    }

    /** `get`: take the oldest item. The source's `get` blocks on an empty
        queue until a producer puts something; the model starts from the
        moment an item is there. */
    method Get() returns (x: T)
      requires items != []
      modifies this
      ensures x == old(items)[0]
      ensures items == old(items)[1..]
    {
      x := items[0];
      items := items[1..];
    }
  }
}
