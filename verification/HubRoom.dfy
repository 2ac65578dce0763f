/** When a queue has room, and that no run ever fills one past its bounds. */
module HubRoom {
  import opened Octets
  import opened Frames
  import opened HubState

  const QUEUE_BYTES: nat := 8 * 1024 * 1024
  const QUEUE_SLOTS: nat := 256

  /** What a frame spends of the byte budget: its payload and 256 bytes, and never more than all of it. */
  function Cost(f: Frame): nat {
    if PayloadBytes(f) + 256 < QUEUE_BYTES then PayloadBytes(f) + 256 else QUEUE_BYTES
  }

  function Costs(items: seq<Outbound>): nat {
    if |items| == 0 then 0 else
      var last := items[|items| - 1];
      Costs(items[..|items| - 1]) + if last.Data? then Cost(last.frame) else 0
  }

  predicate Affords(c: Channel, f: Frame) { Costs(c.Waiting()) + c.reserved + Cost(f) <= QUEUE_BYTES }

  /** Bytes, a reader and a slot. */
  predicate Room(c: Channel, f: Frame) { Affords(c, f) && !c.closed && |c.Waiting()| < QUEUE_SLOTS }

  /** The bytes are there and the reader is not. */
  predicate Unread(c: Channel, f: Frame) { Affords(c, f) && c.closed }

  function Queue(c: Channel, items: seq<Outbound>): Channel { c.(accepted := c.accepted + items) }

  lemma {:induction false} PermitsAppend(a: seq<Outbound>, b: seq<Outbound>)
    ensures HeldPermits(a + b) == HeldPermits(a) + HeldPermits(b)
  {
    if |a| == 0 {
      assert a + b == b;
    } else {
      PermitsAppend(a[1..], b);
      assert (a + b)[1..] == a[1..] + b;
    }
  }

  lemma {:induction false} PermitsAreCosts(items: seq<Outbound>)
    ensures HeldPermits(items) == Costs(items)
  {
    if |items| > 0 {
      var front, last := items[..|items| - 1], items[|items| - 1];
      PermitsAreCosts(front);
      PermitsAppend(front, [last]);
      assert items == front + [last] && [last][1..] == [];
    }
  }

  /** `try_queue` queues a frame exactly when there is room, and says a channel is closed exactly when it is unread. */
  lemma TryQueueMeans(c: Channel, f: Frame)
    ensures Answer(c, f).Sent? <==> Room(c, f)
    ensures Answer(c, f).Closed? <==> Unread(c, f)
    ensures TryQueue(c, f) == if Room(c, f) then Queue(c, [Data(f)]) else c
  {
    PermitsAreCosts(c.Waiting());
  }

  lemma WaitingGrows(c: Channel, items: seq<Outbound>)
    requires c.taken <= |c.accepted|
    ensures Queue(c, items).Waiting() == c.Waiting() + items
  {
  }

  /** What does not fit now does not fit behind more. */
  lemma RoomShrinks(c: Channel, items: seq<Outbound>, f: Frame)
    requires c.taken <= |c.accepted| && Room(Queue(c, items), f)
    ensures Room(c, f)
  {
    WaitingGrows(c, items);
    PermitsAppend(c.Waiting(), items);
    PermitsAreCosts(c.Waiting());
    PermitsAreCosts(c.Waiting() + items);
  }
}
