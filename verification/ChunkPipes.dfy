/** The bounded single-producer, single-consumer pipe of chunks (helper.h, chunk_pipe).

    Each method is one critical section of the pipe's mutex, or one access to a slot outside it. A method's guard in
    `requires` is the condition its thread waits for. Two threads interleave these methods in any order their own
    sequences allow: the producer takes a slot, fills it, publishes it, and at the end closes; the consumer takes a slot,
    reads it, and releases it. Every contract holds in every valid state, so it covers every interleaving. */
module ChunkPipes {
  import opened Options

  /** The slot `i` places after `head` in a ring of `depth`. */
  function PlaceIn(head: nat, depth: nat, i: nat): (at: nat)
    requires depth > 0
    ensures at < depth
  {
    (head + i) % depth
  }

  /** The ring holds `queue` from `head` on. */
  ghost predicate InFlight<T>(ring: seq<T>, head: nat, queue: seq<T>) {
    && head < |ring| && |queue| <= |ring|
    && forall i | 0 <= i < |queue| :: ring[PlaceIn(head, |ring|, i)] == queue[i]
  }

  /** A place at most one lap on, without the modulus. */
  lemma PlaceAt(head: nat, depth: nat, i: nat)
    requires head < depth && i <= depth
    ensures PlaceIn(head, depth, i) == if head + i < depth then head + i else head + i - depth
  {
    Lap(head + i, depth);
  }

  /** Two places less than one lap apart are different. */
  lemma PlacesDiffer(head: nat, depth: nat, i: nat, j: nat)
    requires head < depth && i < j < depth
    ensures PlaceIn(head, depth, i) != PlaceIn(head, depth, j)
  {
    hide PlaceIn;
    PlaceAt(head, depth, i);
    PlaceAt(head, depth, j);
  }

  /** The slot after the queue is none of the queue's. */
  lemma FillingIsApart<T>(ring: seq<T>, head: nat, queue: seq<T>, item: T)
    requires InFlight(ring, head, queue) && |queue| < |ring|
    ensures InFlight(ring[PlaceIn(head, |ring|, |queue|) := item], head, queue)
    ensures queue != [] ==> PlaceIn(head, |ring|, 0) != PlaceIn(head, |ring|, |queue|)
  {
    hide PlaceIn;
    forall i | 0 <= i < |queue|
      ensures PlaceIn(head, |ring|, i) != PlaceIn(head, |ring|, |queue|)
    {
      PlacesDiffer(head, |ring|, i, |queue|);
    }
  }

  lemma PlacesShift(head: nat, depth: nat, i: nat)
    requires head < depth && i < depth
    ensures PlaceIn(PlaceIn(head, depth, 1), depth, i) == PlaceIn(head, depth, i + 1)
  {
    hide PlaceIn;
    PlaceAt(head, depth, 1);
    PlaceAt(PlaceIn(head, depth, 1), depth, i);
    PlaceAt(head, depth, i + 1);
  }

  lemma InFlightShifts<T>(ring: seq<T>, head: nat, queue: seq<T>)
    requires InFlight(ring, head, queue) && queue != []
    ensures InFlight(ring, PlaceIn(head, |ring|, 1), queue[1..])
    ensures PlaceIn(PlaceIn(head, |ring|, 1), |ring|, |queue| - 1) == PlaceIn(head, |ring|, |queue|)
  {
    hide PlaceIn;
    forall i | 0 <= i < |queue|
      ensures PlaceIn(PlaceIn(head, |ring|, 1), |ring|, i) == PlaceIn(head, |ring|, i + 1)
    {
      PlacesShift(head, |ring|, i);
    }
  }

  class ChunkPipe<T> {
    const slots: array<T>
    var head: nat
    var count: nat
    var closed: bool
    /** Which thread is between taking a slot and giving it up, everything published so far, and how much was released. */
    ghost var filling: bool
    ghost var draining: bool
    ghost var published: seq<T>
    ghost var released: nat

    ghost predicate Valid()
      reads this, slots
    {
      && |published| == released + count && InFlight(slots[..], head, published[released..])
      && (filling ==> count < slots.Length && !closed)
      && (draining ==> count > 0)
    }

    /** The slot `i` places after the consumer's. */
    function Place(i: nat): (at: nat)
      requires slots.Length > 0
      reads this`head
      ensures at < slots.Length
    {
      PlaceIn(head, slots.Length, i)
    }

    /** The chunks in flight, oldest first: what the pipe is as a queue. */
    ghost function Queue(): seq<T>
      requires Valid()
      reads this, slots
    {
      published[released..]
    }

    constructor (depth: nat, init: T)
      requires depth > 0
      ensures Valid() && Queue() == [] && slots.Length == depth && !closed && !filling && !draining
      ensures published == [] && released == 0 && fresh(slots)
    {
      slots := new T[depth](_ => init);
      head, count, closed := 0, 0, false;
      filling, draining, published, released := false, false, [], 0;
    }

    /** `producer_slot`: wait for room, then hand out the slot after the queue. */
    method ProducerSlot() returns (at: nat)
      requires Valid() && !filling && !closed && count < slots.Length
      modifies this`filling
      ensures Valid() && filling && Queue() == old(Queue()) && at == Place(count)
      ensures draining ==> at != Place(0)
    {
      at := Place(count);
      filling := true;
      FillingIsApart(slots[..], head, published[released..], slots[at]);
    }

    /** Write the slot being filled: the queue, and the slot being drained, are untouched. */
    method Fill(at: nat, item: T)
      requires Valid() && filling && at == Place(count)
      modifies slots
      ensures Valid() && slots[at] == item && Queue() == old(Queue())
      ensures draining ==> slots[Place(0)] == old(slots[Place(0)])
    {
      hide PlaceIn;
      FillingIsApart(slots[..], head, published[released..], item);
      slots[at] := item;
      assert slots[..] == old(slots[..])[at := item];
    }

    /** `producer_publish`: the filled slot joins the queue. */
    method Publish()
      requires Valid() && filling
      modifies this`count, this`filling, this`published
      ensures Valid() && !filling && Queue() == old(Queue()) + [old(slots[Place(count)])] && Place(0) == old(Place(0))
      ensures published == old(published) + [old(slots[Place(count)])]
    {
      published := published + [slots[Place(count)]];
      count, filling := count + 1, false;
    }

    /** `producer_close`: no more chunks; a slot taken but not published is given up. */
    method Close()
      requires Valid() && !closed
      modifies this`closed, this`filling
      ensures Valid() && closed && !filling && Queue() == old(Queue())
    {
      closed, filling := true, false;
    }

    /** `consumer_slot`: wait for a chunk or the end; nothing is left exactly when the pipe is drained and closed. */
    method ConsumerSlot() returns (at: Option<nat>)
      requires Valid() && !draining && (count > 0 || closed)
      modifies this`draining
      ensures Valid() && Queue() == old(Queue())
      ensures at == if Queue() == [] then None else Some(Place(0))
      ensures at.None? ==> closed && published[..released] == published
      ensures draining <==> at.Some?
    {
      if count == 0 {
        return None;
      }
      at, draining := Some(head), true;
      assert Place(0) == head;
    }

    /** Read the slot being drained: it is the oldest chunk of the queue, however far the producer has got. */
    method Read(at: nat) returns (item: T)
      requires Valid() && draining && at == Place(0)
      ensures Queue() != [] && item == Queue()[0]
    {
      item := slots[at];
    }

    /** `consumer_release`: the oldest chunk leaves the queue; the slot being filled keeps its index and its contents. */
    method Release()
      requires Valid() && draining
      modifies this`head, this`count, this`draining, this`released
      ensures Valid() && !draining && Queue() == old(Queue())[1..] && released == old(released) + 1
      ensures Place(count) == old(Place(count)) && slots[Place(count)] == old(slots[Place(count)])
    {
      hide PlaceIn;
      InFlightShifts(slots[..], head, published[released..]);
      head, count := PlaceIn(head, slots.Length, 1), count - 1;
      draining, released := false, released + 1;
      assert published[released..] == old(published[released..])[1..];
    }
  }

  /** Where the producer's thread is: items published, the slot it holds, and whether it has filled it. */
  datatype ProducerAt = ProducerAt(next: nat, slot: Option<nat>, filled: bool)

  /** Where the consumer's thread is: the slot it holds, whether it has read it, and all it has read. */
  datatype ConsumerAt<T> = ConsumerAt(held: Option<nat>, read: bool, taken: seq<T>, drained: bool)

  ghost predicate ProducerOk<T>(pipe: ChunkPipe<T>, items: seq<T>, p: ProducerAt)
    reads pipe, pipe.slots
  {
    && pipe.Valid() && p.next <= |items|
    && pipe.published == items[..p.next] && (pipe.closed ==> p.next == |items|)
    && (p.slot.Some? <==> pipe.filling)
    && (p.slot.Some? ==> p.slot.value == pipe.Place(pipe.count) && p.next < |items|)
    && (p.filled ==> p.slot.Some? && pipe.slots[p.slot.value] == items[p.next])
  }

  ghost predicate ConsumerOk<T>(pipe: ChunkPipe<T>, items: seq<T>, c: ConsumerAt<T>)
    reads pipe, pipe.slots
  {
    && pipe.Valid()
    && (c.held.Some? <==> pipe.draining)
    && (c.held.Some? ==> c.held.value == pipe.Place(0))
    && (c.read ==> c.held.Some?)
    && c.taken == pipe.published[..pipe.released + if c.read then 1 else 0]
    && (c.drained ==> c.taken == items)
  }

  /** One turn of the producer; a thread whose guard fails just waits. */
  method ProducerTurn<T>(pipe: ChunkPipe<T>, items: seq<T>, p: ProducerAt, ghost c: ConsumerAt<T>) returns (p': ProducerAt)
    requires ProducerOk(pipe, items, p) && ConsumerOk(pipe, items, c)
    modifies pipe, pipe.slots
    ensures ProducerOk(pipe, items, p') && ConsumerOk(pipe, items, c)
  {
    hide PlaceIn, InFlight;
    p' := p;
    if p.slot.Some? {
      if p.filled {
        pipe.Publish();
        p' := ProducerAt(p.next + 1, None, false);
      } else {
        pipe.Fill(p.slot.value, items[p.next]);
        p' := p.(filled := true);
      }
    } else if p.next < |items| && pipe.count < pipe.slots.Length {
      var at := pipe.ProducerSlot();
      p' := p.(slot := Some(at));
    } else if p.next == |items| && !pipe.closed {
      pipe.Close();
    }
  }

  /** One turn of the consumer. */
  method ConsumerTurn<T>(pipe: ChunkPipe<T>, items: seq<T>, ghost p: ProducerAt, c: ConsumerAt<T>) returns (c': ConsumerAt<T>)
    requires ProducerOk(pipe, items, p) && ConsumerOk(pipe, items, c)
    modifies pipe, pipe.slots
    ensures ProducerOk(pipe, items, p) && ConsumerOk(pipe, items, c')
  {
    hide PlaceIn, InFlight;
    c' := c;
    if c.held.Some? {
      if c.read {
        pipe.Release();
        c' := c.(held := None, read := false);
      } else {
        var item := pipe.Read(c.held.value);
        c' := c.(taken := c.taken + [item], read := true);
      }
    } else if !c.drained && (pipe.count > 0 || pipe.closed) {
      var at := pipe.ConsumerSlot();
      c' := c.(held := at, drained := at.None?);
    }
  }

  /** Both threads under an arbitrary schedule: `schedule[k]` says whose turn step `k` is. The consumer always holds a
      prefix of what the producer was given, in order, and once it is told that the pipe is drained it holds all of it. */
  method Interleave<T>(depth: nat, init: T, items: seq<T>, schedule: seq<bool>) returns (taken: seq<T>, drained: bool)
    requires depth > 0
    ensures taken <= items
    ensures drained ==> taken == items
  {
    hide ChunkPipe.Valid, ProducerOk, ConsumerOk;
    var pipe := new ChunkPipe<T>(depth, init);
    var p, c := ProducerAt(0, None, false), ConsumerAt(None, false, [], false);
    ThreadsStartOk(pipe, items);
    for k := 0 to |schedule|
      invariant fresh(pipe) && fresh(pipe.slots)
      invariant ProducerOk(pipe, items, p) && ConsumerOk(pipe, items, c)
    {
      if schedule[k] {
        p := ProducerTurn(pipe, items, p, c);
      } else {
        c := ConsumerTurn(pipe, items, p, c);
      }
    }
    TakenInOrder(pipe, items, p, c);
    taken, drained := c.taken, c.drained;
  }

  lemma ThreadsStartOk<T>(pipe: ChunkPipe<T>, items: seq<T>)
    requires pipe.Valid() && pipe.published == [] && pipe.released == 0 && !pipe.closed && !pipe.filling && !pipe.draining
    ensures ProducerOk(pipe, items, ProducerAt(0, None, false)) && ConsumerOk(pipe, items, ConsumerAt(None, false, [], false))
  {
    hide ChunkPipe.Valid;
  }

  lemma TakenInOrder<T>(pipe: ChunkPipe<T>, items: seq<T>, p: ProducerAt, c: ConsumerAt<T>)
    requires ProducerOk(pipe, items, p) && ConsumerOk(pipe, items, c)
    ensures c.taken <= items && (c.drained ==> c.taken == items)
  {
    hide PlaceIn, InFlight;
  }

  lemma Lap(x: nat, d: nat)
    requires d > 0 && x < 2 * d
    ensures x % d == if x < d then x else x - d
  {
    if x >= d {
      assert x == d + (x - d);
      assert (x - d) % d == x - d;
    }
  }
}
