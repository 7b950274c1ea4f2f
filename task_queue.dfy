/**
 * Tasks and the buffered channel that carries them from AddTask to the
 * workers.
 */
module TaskQueue {

  /**
   * A task, identified by its ID. The work closure and the wait group it
   * signals are not part of this model.
   */
  datatype Task = Task(id: string)

  /**
   * A Go buffered channel of tasks: a FIFO queue whose length never exceeds
   * the capacity fixed when it is made.
   */
  class Channel {
    const capacity: nat
    var buf: seq<Task>

    ghost predicate Valid()
      reads this
    {
      |buf| <= capacity
    }

    /** `make(chan Task, capacity)`: an empty channel. */
    constructor (capacity: nat)
      ensures Valid()
      ensures this.capacity == capacity && buf == []
    {
      this.capacity := capacity;
      buf := [];
    }

    /** A send that finds room: the task goes to the tail. */
    method Send(t: Task)
      requires Valid()
      requires |buf| < capacity
      modifies this
      ensures Valid()
      ensures buf == old(buf) + [t]
    {
      buf := buf + [t];
    }

    /**
     * A send in a `select` with a `default` case: it sends when there is room
     * and otherwise leaves the channel as it is.
     */
    method TrySend(t: Task) returns (sent: bool)
      requires Valid()
      modifies this
      ensures Valid()
      ensures sent <==> |old(buf)| < capacity
      ensures buf == if sent then old(buf) + [t] else old(buf)
    {
      sent := |buf| < capacity;
      if sent {
        buf := buf + [t];
      }
    }

    /** A receive that finds a task: the head leaves the queue. */
    method Receive() returns (t: Task)
      requires Valid()
      requires buf != []
      modifies this
      ensures Valid()
      ensures t == old(buf)[0] && buf == old(buf)[1..]
    {
      t := buf[0];
      buf := buf[1..];
    }
  }

  /** Two tasks sent on an empty channel are received in the order they were sent. */
  method FifoOrder(ch: Channel, a: Task, b: Task) returns (first: Task, second: Task)
    requires ch.Valid() && ch.buf == [] && ch.capacity >= 2
    modifies ch
    ensures first == a && second == b
    ensures ch.Valid() && ch.buf == []
  {
    ch.Send(a);
    ch.Send(b);
    first := ch.Receive();
    second := ch.Receive();
  }
}
