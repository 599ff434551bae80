/** The bounded prompt queue (agent/prompt_queue.py) and the event queue (core/event_queue.py). */
module Queues {
  import opened PyText

  datatype QueuedPrompt = QueuedPrompt(queueId: string, prompt: string, imageId: Option<string>)

  class PromptQueue {
    const maxsize: nat
    var items: seq<QueuedPrompt>
    var counter: nat

    ghost predicate Valid()
      reads this
    {
      |items| <= maxsize && 1 <= maxsize
    }

    constructor (size: int)
      ensures Valid() && items == [] && counter == 0
      ensures maxsize == if size < 1 then 1 else size
    {
      maxsize := if size < 1 then 1 else size;
      items := [];
      counter := 0;
    }

    /** Appends a prompt, or refuses and changes nothing when the queue is full. */
    method Enqueue(prompt: string, imageId: Option<string>) returns (item: Option<QueuedPrompt>)
      requires Valid()
      modifies this
      ensures Valid()
      ensures item.None? <==> |old(items)| == maxsize
      ensures item.None? ==> items == old(items) && counter == old(counter)
      ensures item.Some? ==>
                && counter == old(counter) + 1
                && item.value == QueuedPrompt("queued_" + Decimal(counter), prompt, imageId)
                && items == old(items) + [item.value]
    {
      if |items| >= maxsize {
        return None;
      }
      counter := counter + 1;
      var entry := QueuedPrompt("queued_" + Decimal(counter), prompt, imageId);
      items := items + [entry];
      item := Some(entry);
    }

    /** The oldest prompt. */
    method Pop() returns (item: Option<QueuedPrompt>)
      requires Valid()
      modifies this
      ensures Valid() && counter == old(counter)
      ensures item.None? <==> old(items) == []
      ensures old(items) == (if item.Some? then [item.value] else []) + items
    {
      if items == [] {
        return None;
      }
      item := Some(items[0]);
      items := items[1..];
    }

    method Clear() returns (removed: seq<QueuedPrompt>)
      requires Valid()
      modifies this
      ensures Valid() && items == [] && removed == old(items) && counter == old(counter)
    {
      removed := items;
      items := [];
    }
  }

  class EventQueue<T> {
    var items: seq<T>

    constructor ()
      ensures items == []
    {
      items := [];
    }

    method Put(e: T)
      modifies this
      ensures items == old(items) + [e]
    {
      items := items + [e];
    }

    /**
     * Takes a batch off the front, in order. `expired(n)` tells whether the time budget is used up once n
     * events are taken; the batch ends for no other reason than that, its size, or an empty queue.
     */
    method DrainBatch(maxItems: nat, expired: nat -> bool) returns (batch: seq<T>)
      modifies this
      ensures old(items) == batch + items
      ensures |batch| <= maxItems && forall n :: 0 <= n < |batch| ==> !expired(n)
      ensures |batch| == maxItems || expired(|batch|) || items == []
    {
      batch := [];
      while |batch| < maxItems
        invariant old(items) == batch + items
        invariant |batch| <= maxItems && forall n :: 0 <= n < |batch| ==> !expired(n)
        decreases maxItems - |batch|
      {
        if expired(|batch|) || items == [] {
          break;
        }
        batch := batch + [items[0]];
        items := items[1..];
      }
    }

    method Clear() returns (discarded: nat)
      modifies this
      ensures items == [] && discarded == |old(items)|
    {
      discarded := 0;
      while items != []
        invariant discarded + |items| == |old(items)|
        decreases |items|
      {
        items := items[1..];
        discarded := discarded + 1;
      }
    }
  }
}
