/** A buffered Go channel of errors: `make(chan error, n)`, `ch <- e`, `close(ch)` and
    `<-ch`.  A send on a full channel would block and a send on a closed channel would
    panic; the pipeline never does either, so `Send` demands room and an open channel. */
module Channel {
  import opened Wrappers
  import opened Errors

  class Chan {
    const capacity: nat
    var buf: seq<Error>
    var closed: bool

    /** The buffer never holds more than the capacity the channel was made with. */
    ghost predicate Valid()
      reads this
    {
      |buf| <= capacity
    }

    /** make(chan error, capacity) */
    constructor (capacity: nat)
      ensures Valid()
      ensures this.capacity == capacity && buf == [] && !closed
    {
      this.capacity := capacity;
      buf := [];
      closed := false;
    }

    /** ch <- e */
    method Send(e: Error)
      requires Valid() && !closed && |buf| < capacity
      modifies this
      ensures Valid()
      ensures buf == old(buf) + [e] && !closed
    {
      buf := buf + [e];
    }

    /** close(ch) */
    method Close()
      requires Valid() && !closed
      modifies this
      ensures Valid()
      ensures closed && buf == old(buf)
    {
      closed := true;
    }

    /** <-ch: the oldest buffered value, or nil (None) once the channel is closed and drained.
        Receiving from an open, empty channel would block, which the pipeline never does. */
    method Receive() returns (e: Option<Error>)
      requires Valid() && (closed || |buf| > 0)
      modifies this
      ensures Valid() && closed == old(closed)
      ensures old(buf) == [] ==> e == None && buf == []
      ensures old(buf) != [] ==> e == Some(old(buf)[0]) && buf == old(buf)[1..]
    {
      if buf == [] {
        e := None;
      } else {
        e := Some(buf[0]);
        buf := buf[1..];
      }
    }
  }
}
