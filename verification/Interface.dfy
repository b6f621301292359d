/** A session's network interface: bounded buffers on both sides of a pair of bounded channels
    (src/components/interface.rs). */
module Interfaces {
  import opened Wrappers
  import opened Links
  import opened Advertisements

  /** A bounded channel between two interfaces, or from an interface to itself. */
  class Channel {
    const bound: nat
    var queue: seq<Advertisement>

    ghost predicate Valid()
      reads this
    {
      |queue| <= bound
    }

    constructor (bound: nat)
      ensures Valid() && this.bound == bound && queue == []
    {
      this.bound, queue := bound, [];
    }

    method TrySend(ad: Advertisement) returns (ok: bool)
      requires Valid()
      modifies this
      ensures Valid() && ok == (|old(queue)| < bound)
      ensures queue == if ok then old(queue) + [ad] else old(queue)
    {
      ok := |queue| < bound;
      if ok {
        queue := queue + [ad];
      }
    }

    method TryRecv() returns (message: Option<Advertisement>)
      modifies this
      ensures old(queue) == [] ==> message == None && queue == []
      ensures old(queue) != [] ==> message == Some(old(queue[0])) && queue == old(queue[1..])
    {
      message := None;
      if queue != [] {
        message := Some(queue[0]);
        queue := queue[1..];
      }
    }
  }

  // ---- one end of a link, as a value ----

  /** The buffers, their capacities, the sizes the next buffers will have, and the filters. */
  datatype Port = Port(
    incoming: seq<Advertisement>, incomingCapacity: nat,
    outgoing: seq<Advertisement>, outgoingCapacity: nat,
    sizeIncoming: nat, sizeOutgoing: nat,
    inFilter: Advertisement -> bool, outFilter: Advertisement -> bool)

  datatype Queue = Queue(bound: nat, messages: seq<Advertisement>)

  /** An interface with the channels it is attached to; a loopback has one channel, twice. */
  datatype End = End(port: Port, inbound: Option<Queue>, outbound: Option<Queue>, loopback: bool)

  predicate EndOk(e: End) {
    && |e.port.incoming| <= e.port.incomingCapacity
    && |e.port.outgoing| <= e.port.outgoingCapacity
    && (e.inbound.Some? ==> |e.inbound.value.messages| <= e.inbound.value.bound)
    && (e.outbound.Some? ==> |e.outbound.value.messages| <= e.outbound.value.bound)
    && (e.loopback ==> e.inbound.Some? && e.inbound == e.outbound)
  }

  function Pulled(e: End): End {
    if e.inbound.None? then e
    else
      var (q, i) := Received(e.inbound.value.messages, e.port.incoming, e.port.incomingCapacity, e.port.inFilter);
      var channel := Some(e.inbound.value.(messages := q));
      e.(port := e.port.(incoming := i), inbound := channel, outbound := if e.loopback then channel else e.outbound)
  }

  function Emptied(p: Port): Port {
    p.(incoming := [], incomingCapacity := p.sizeIncoming)
  }

  /** What `get_incoming_advertisements` hands over after a `receive`. */
  function Arriving(e: End): seq<Advertisement> {
    Pulled(e).port.incoming
  }

  /** The end after both. */
  function AfterReceive(e: End): End {
    Pulled(e).(port := Emptied(Pulled(e).port))
  }

  function Pushed(e: End, ads: seq<Advertisement>): End
    requires EndOk(e)
  {
    if e.outbound.None? then e
    else e.(port := e.port.(outgoing := Accepted(e.port.outgoing, e.port.outgoingCapacity, ads)))
  }

  function Flushed(e: End): End {
    if e.outbound.None? || e.port.outgoing == [] then e
    else
      var q := Transmitted(e.port.outgoing, e.outbound.value.messages, e.outbound.value.bound, e.port.outFilter);
      var channel := Some(e.outbound.value.(messages := q));
      e.(port := e.port.(outgoing := [], outgoingCapacity := e.port.sizeOutgoing),
         outbound := channel, inbound := if e.loopback then channel else e.inbound)
  }

  function AfterSend(e: End, ads: seq<Advertisement>): End
    requires EndOk(e)
  {
    Flushed(Pushed(e, ads))
  }

  // Every stage keeps every buffer within its capacity.

  lemma PullKeepsBounds(e: End)
    requires EndOk(e)
    ensures EndOk(Pulled(e)) && EndOk(AfterReceive(e))
  {
    if e.inbound.Some? {
      ReceiveOrder(e.inbound.value.messages, e.port.incoming, e.port.incomingCapacity, e.port.inFilter);
    }
  }

  lemma FlushKeepsBounds(e: End)
    requires EndOk(e)
    ensures EndOk(Flushed(e))
  {
    if e.outbound.Some? {
      TransmitOrder(e.port.outgoing, e.outbound.value.messages, e.outbound.value.bound, e.port.outFilter);
    }
  }

  lemma SendKeepsBounds(e: End, ads: seq<Advertisement>)
    requires EndOk(e)
    ensures EndOk(Pushed(e, ads)) && EndOk(AfterSend(e, ads))
  {
    FlushKeepsBounds(Pushed(e, ads));
  }

  /** Replaced buffers are empty and have the configured sizes: the incoming one after every receive,
      the outgoing one after a send that had something to send. Sizes and filters never change. */
  lemma BuffersAreReplaced(e: End, ads: seq<Advertisement>)
    requires EndOk(e)
    ensures var p := AfterReceive(e).port;
            && p.incoming == [] && p.incomingCapacity == e.port.sizeIncoming
            && p.outgoing == e.port.outgoing && p.outgoingCapacity == e.port.outgoingCapacity
            && p.sizeIncoming == e.port.sizeIncoming && p.sizeOutgoing == e.port.sizeOutgoing
            && p.inFilter == e.port.inFilter && p.outFilter == e.port.outFilter
    ensures var p := AfterSend(e, ads).port;
            var idle := e.outbound.None? || (e.port.outgoing == [] && (ads == [] || e.port.outgoingCapacity == 0));
            && (idle ==> p == e.port)
            && (!idle ==> p.outgoing == [] && p.outgoingCapacity == e.port.sizeOutgoing)
            && p.incoming == e.port.incoming && p.incomingCapacity == e.port.incomingCapacity
            && p.sizeIncoming == e.port.sizeIncoming && p.sizeOutgoing == e.port.sizeOutgoing
            && p.inFilter == e.port.inFilter && p.outFilter == e.port.outFilter
  {
  }

  // ---- nothing appears from nowhere ----

  lemma {:induction false} SubseqMember<T>(a: seq<T>, b: seq<T>, x: T)
    requires Subseq(a, b) && x in a
    ensures x in b
    decreases |b|
  {
    if a[0] == b[0] && Subseq(a[1..], b[1..]) {
      if x != a[0] {
        SubseqMember(a[1..], b[1..], x);
      }
    } else {
      SubseqMember(a, b[1..], x);
    }
  }

  /** A message received was buffered or in the inbound channel, and what stays in the channel
      was in it. */
  lemma ReceiveInvents(e: End, x: Advertisement)
    requires EndOk(e)
    ensures x in Arriving(e) ==> x in e.port.incoming || (e.inbound.Some? && x in e.inbound.value.messages)
    ensures e.inbound.Some? <==> AfterReceive(e).inbound.Some?
    ensures e.inbound.Some? && x in AfterReceive(e).inbound.value.messages ==> x in e.inbound.value.messages
  {
    if e.inbound.Some? {
      ReceiveOrder(e.inbound.value.messages, e.port.incoming, e.port.incomingCapacity, e.port.inFilter);
    }
  }

  /** A message in the outbound channel was there, was buffered, or is being sent; so was one in
      the outgoing buffer. */
  lemma SendInvents(e: End, ads: seq<Advertisement>, x: Advertisement)
    requires EndOk(e)
    ensures var e' := AfterSend(e, ads);
            && (x in e'.port.outgoing ==> x in e.port.outgoing || x in ads)
            && (e'.outbound.Some? <==> e.outbound.Some?)
            && (e'.outbound.Some? && x in e'.outbound.value.messages ==>
                  x in e.outbound.value.messages || x in e.port.outgoing || x in ads)
  {
    var p := Pushed(e, ads);
    if p.outbound.Some? {
      TransmitOrder(p.port.outgoing, p.outbound.value.messages, p.outbound.value.bound, p.port.outFilter);
      var q := Transmitted(p.port.outgoing, p.outbound.value.messages, p.outbound.value.bound, p.port.outFilter);
      if x in q {
        SubseqMember(q, p.outbound.value.messages + p.port.outgoing, x);
      }
    }
  }

  // ---- the class ----

  datatype InterfaceError = OutgoingBufferCapacityExceeded

  class Interface {
    var inChannel: Channel?
    var outChannel: Channel?
    var inFilter: Advertisement -> bool
    var outFilter: Advertisement -> bool
    var incoming: seq<Advertisement>
    var outgoing: seq<Advertisement>
    var incomingCapacity: nat
    var outgoingCapacity: nat
    var bufferSizeIncoming: nat
    var bufferSizeOutgoing: nat

    ghost function Repr(): set<object>
      reads this
    {
      {this} + (if inChannel != null then {inChannel} else {}) + (if outChannel != null then {outChannel} else {})
    }

    ghost function View(): End
      reads Repr()
    {
      End(Port(incoming, incomingCapacity, outgoing, outgoingCapacity,
               bufferSizeIncoming, bufferSizeOutgoing, inFilter, outFilter),
          if inChannel != null then Some(Queue(inChannel.bound, inChannel.queue)) else None,
          if outChannel != null then Some(Queue(outChannel.bound, outChannel.queue)) else None,
          inChannel != null && inChannel == outChannel)
    }

    ghost predicate Valid()
      reads Repr()
    {
      EndOk(View())
    }

    constructor ()
      ensures Valid() && Repr() == {this}
      ensures View() == End(Port([], 1000, [], 1000, 1000, 1000, NoFilter, NoFilter), None, None, false)
    {
      inChannel, outChannel := null, null;
      inFilter, outFilter := NoFilter, NoFilter;
      incoming, outgoing := [], [];
      incomingCapacity, outgoingCapacity := 1000, 1000;
      bufferSizeIncoming, bufferSizeOutgoing := 1000, 1000;
    }

    /** An interface that receives what it sends. The buffers keep their first capacities until
        they are replaced. */
    constructor Loopback(queueBufferSize: nat, linkBufferSize: nat)
      ensures Valid() && fresh(Repr())
      ensures var channel := Some(Queue(linkBufferSize, []));
              View() == End(Port([], 1000, [], 1000, queueBufferSize, queueBufferSize, NoFilter, NoFilter),
                            channel, channel, true)
    {
      inFilter, outFilter := NoFilter, NoFilter;
      incoming, outgoing := [], [];
      incomingCapacity, outgoingCapacity := 1000, 1000;
      var channel := new Channel(linkBufferSize);
      inChannel, outChannel := channel, channel;
      bufferSizeIncoming, bufferSizeOutgoing := queueBufferSize, queueBufferSize;
    }

    method SetInChannel(channel: Channel)
      requires Valid() && channel.Valid()
      modifies this`inChannel
      ensures Valid() && inChannel == channel
      ensures View() == old(View()).(inbound := Some(Queue(channel.bound, channel.queue)),
                                     loopback := channel == outChannel)
    {
      inChannel := channel;
    }

    method SetOutChannel(channel: Channel)
      requires Valid() && channel.Valid()
      modifies this`outChannel
      ensures Valid() && outChannel == channel
      ensures View() == old(View()).(outbound := Some(Queue(channel.bound, channel.queue)),
                                     loopback := inChannel == channel)
    {
      outChannel := channel;
    }

    /** Takes effect when the buffers are next replaced. */
    method SetBufferSize(incoming: nat, outgoing: nat)
      requires Valid()
      modifies this`bufferSizeIncoming, this`bufferSizeOutgoing
      ensures Valid()
      ensures View() == old(View()).(port := old(View()).port.(sizeIncoming := incoming, sizeOutgoing := outgoing))
    {
      bufferSizeIncoming, bufferSizeOutgoing := incoming, outgoing;
    }

    /** Replaces both buffers at once; their contents are dropped. */
    method ForceResize()
      requires Valid()
      modifies this`incoming, this`outgoing, this`incomingCapacity, this`outgoingCapacity
      ensures Valid()
      ensures View() == old(View()).(port := Emptied(old(View()).port).(outgoing := [],
                                                                        outgoingCapacity := bufferSizeOutgoing))
    {
      incoming, outgoing := [], [];
      incomingCapacity, outgoingCapacity := bufferSizeIncoming, bufferSizeOutgoing;
    }

    method Receive()
      requires Valid()
      modifies this`incoming, inChannel
      ensures Valid() && View() == Pulled(old(View()))
    {
      PullKeepsBounds(View());
      if inChannel == null {
        return;
      }
      ghost var result := Received(inChannel.queue, incoming, incomingCapacity, inFilter);
      while true
        invariant Received(inChannel.queue, incoming, incomingCapacity, inFilter) == result
        decreases |inChannel.queue|
      {
        var message := inChannel.TryRecv();
        if message.None? {
          break;
        }
        var ad := message.value;
        if inFilter(ad) {
          if |incoming| < incomingCapacity {
            incoming := incoming + [ad];
          } else {
            break;
          }
        }
      }
    }

    method Send()
      requires Valid()
      modifies this`outgoing, this`outgoingCapacity, outChannel
      ensures Valid() && View() == Flushed(old(View()))
    {
      FlushKeepsBounds(View());
      if outgoing == [] || outChannel == null {
        return;
      }
      var ads := outgoing;
      outgoing, outgoingCapacity := [], bufferSizeOutgoing;
      ghost var result := Transmitted(ads, outChannel.queue, outChannel.bound, outFilter);
      assert ads[0..] == ads;
      var i := 0;
      while i < |ads|
        invariant 0 <= i <= |ads| && outChannel.Valid()
        invariant Transmitted(ads[i..], outChannel.queue, outChannel.bound, outFilter) == result
        modifies outChannel
      {
        assert ads[i..][0] == ads[i] && ads[i..][1..] == ads[i + 1..];
        if outFilter(ads[i]) {
          var ok := outChannel.TrySend(ads[i]);
          if !ok {
            break;
          }
        }
        i := i + 1;
      }
    }

    method GetIncomingAdvertisements() returns (ads: seq<Advertisement>)
      requires Valid()
      modifies this`incoming, this`incomingCapacity
      ensures Valid() && ads == old(incoming)
      ensures View() == old(View()).(port := Emptied(old(View()).port))
    {
      ads := incoming;
      incoming, incomingCapacity := [], bufferSizeIncoming;
    }

    method PushOutgoingAdvertisement(ad: Advertisement) returns (error: Option<InterfaceError>)
      requires Valid()
      modifies this`outgoing
      ensures Valid() && View() == Pushed(old(View()), [ad])
      ensures error.Some? <==> outChannel != null && |old(outgoing)| == outgoingCapacity
    {
      if outChannel == null {
        return None;
      }
      if |outgoing| < outgoingCapacity {
        outgoing := outgoing + [ad];
      } else {
        return Some(OutgoingBufferCapacityExceeded);
      }
      error := None;
    }

    /** On overflow the advertisements that fit are kept and an error is reported. */
    method PushOutgoingAdvertisements(ads: seq<Advertisement>) returns (error: Option<InterfaceError>)
      requires Valid()
      modifies this`outgoing
      ensures Valid() && View() == Pushed(old(View()), ads)
      ensures error.Some? <==> outChannel != null && |old(outgoing)| + |ads| > outgoingCapacity
    {
      if ads == [] || outChannel == null {
        return None;
      }
      var capacityLeft := outgoingCapacity - |outgoing|;
      if |ads| > capacityLeft {
        outgoing := outgoing + ads[..capacityLeft];
        return Some(OutgoingBufferCapacityExceeded);
      }
      outgoing := outgoing + ads;
      error := None;
    }
  }

  predicate NoFilter(ad: Advertisement) {
    true
  }
}
