/** The event channel between the sensing workers and the consumer loop: an
    `asyncio.Queue`, whose `maxsize` of 0 means unbounded. */
module Channel {
  import opened Values

  type Event = Dict

  /** The queue after a non-blocking push: unchanged when full. */
  function Pushed(items: seq<Event>, maxsize: nat, e: Event): seq<Event>
  {
    if 0 < maxsize <= |items| then items else items + [e]
  }

  class EventQueue {
    var items: seq<Event>
    const maxsize: nat

    ghost predicate Valid()
      reads this
    {
      maxsize > 0 ==> |items| <= maxsize
    }

    predicate Full()
      reads this
    {
      0 < maxsize <= |items|
    }

    constructor (maxsize: nat)
      ensures Valid() && items == [] && this.maxsize == maxsize
    {
      items := [];
      this.maxsize := maxsize;
    }

    /** `put_nowait`: appends the event, or refuses it (the `QueueFull`
        exception) and leaves the queue as it was. Never blocks. */
    method PutNowait(e: Event) returns (accepted: bool)
      requires Valid()
      modifies this
      ensures Valid()
      ensures accepted <==> !old(Full())
      ensures items == Pushed(old(items), maxsize, e)
      ensures accepted ==> items == old(items) + [e]
      ensures !accepted ==> items == old(items)
    {
      accepted := !Full();
      if accepted {
        items := items + [e];
      }
    }

    /** The consumer's `get`, sequentialised: it would suspend on an empty
        queue, which here is the `None` result with nothing changed. */
    method Get() returns (e: Option<Event>)
      requires Valid()
      modifies this
      ensures Valid()
      ensures old(items) == [] ==> e == None && items == []
      ensures old(items) != [] ==> e == Some(old(items)[0]) && items == old(items)[1..]
    {
      if items == [] {
        e := None;
      } else {
        e := Some(items[0]);
        items := items[1..];
      }
    }
  }

  /** An unbounded queue (the one the application creates) never refuses. */
  lemma UnboundedNeverFull(items: seq<Event>, e: Event)
    ensures Pushed(items, 0, e) == items + [e]
  {
  }

  /** Pushes keep producer order: pushing two events onto a queue with room
      for both leaves them at the tail in the order pushed. */
  lemma PushOrder(items: seq<Event>, maxsize: nat, e1: Event, e2: Event)
    requires maxsize == 0 || |items| + 2 <= maxsize
    ensures Pushed(Pushed(items, maxsize, e1), maxsize, e2) == items + [e1, e2]
  {
  }
}
