/** One direction of a link: an outgoing buffer, a bounded channel and an incoming buffer, with
    a filter at each end (src/components/interface.rs). The operations are functions of the
    buffers' contents; a ledger records what becomes of every message. */
module Links {
  import opened Wrappers

  // ---- the three transfers ----

  /** `push_outgoing_advertisements`: takes what fits the free capacity, drops the rest. */
  function Accepted<T>(outgoing: seq<T>, cap: nat, batch: seq<T>): seq<T>
    requires |outgoing| <= cap
  {
    if |batch| <= cap - |outgoing| then outgoing + batch else outgoing + batch[..cap - |outgoing|]
  }

  /** `send`: offers each message that passes the filter to the channel, and gives up at the
      first one the channel refuses. The rest of the buffer is gone. */
  function Transmitted<T>(outgoing: seq<T>, queue: seq<T>, cap: nat, f: T -> bool): seq<T>
    decreases |outgoing|
  {
    if outgoing == [] then queue
    else if !f(outgoing[0]) then Transmitted(outgoing[1..], queue, cap, f)
    else if |queue| < cap then Transmitted(outgoing[1..], queue + [outgoing[0]], cap, f)
    else queue
  }

  /** `receive`: takes messages from the channel until it is empty, or until one that passes
      the filter finds the buffer full; that one is gone. First the queue, then the buffer. */
  function Received<T>(queue: seq<T>, incoming: seq<T>, cap: nat, f: T -> bool): (seq<T>, seq<T>)
    decreases |queue|
  {
    if queue == [] then (queue, incoming)
    else if !f(queue[0]) then Received(queue[1..], incoming, cap, f)
    else if |incoming| < cap then Received(queue[1..], incoming + [queue[0]], cap, f)
    else (queue[1..], incoming)
  }

  // ---- what the transfers drop ----

  function RefusedByChannel<T>(outgoing: seq<T>, queue: seq<T>, cap: nat, f: T -> bool): seq<T>
    decreases |outgoing|
  {
    if outgoing == [] then []
    else if !f(outgoing[0]) then RefusedByChannel(outgoing[1..], queue, cap, f)
    else if |queue| < cap then RefusedByChannel(outgoing[1..], queue + [outgoing[0]], cap, f)
    else outgoing
  }

  function FilteredOut<T>(outgoing: seq<T>, queue: seq<T>, cap: nat, f: T -> bool): seq<T>
    decreases |outgoing|
  {
    if outgoing == [] then []
    else if !f(outgoing[0]) then [outgoing[0]] + FilteredOut(outgoing[1..], queue, cap, f)
    else if |queue| < cap then FilteredOut(outgoing[1..], queue + [outgoing[0]], cap, f)
    else []
  }

  function RefusedByBuffer<T>(queue: seq<T>, incoming: seq<T>, cap: nat, f: T -> bool): seq<T>
    decreases |queue|
  {
    if queue == [] then []
    else if !f(queue[0]) then RefusedByBuffer(queue[1..], incoming, cap, f)
    else if |incoming| < cap then RefusedByBuffer(queue[1..], incoming + [queue[0]], cap, f)
    else [queue[0]]
  }

  function FilteredIn<T>(queue: seq<T>, incoming: seq<T>, cap: nat, f: T -> bool): seq<T>
    decreases |queue|
  {
    if queue == [] then []
    else if !f(queue[0]) then [queue[0]] + FilteredIn(queue[1..], incoming, cap, f)
    else if |incoming| < cap then FilteredIn(queue[1..], incoming + [queue[0]], cap, f)
    else []
  }

  // ---- subsequences ----

  /** `a` is obtained from `b` by deleting positions. */
  ghost predicate Subseq<T>(a: seq<T>, b: seq<T>)
    decreases |b|
  {
    || a == []
    || (b != [] && ((a[0] == b[0] && Subseq(a[1..], b[1..])) || Subseq(a, b[1..])))
  }

  lemma {:induction false} SubseqRefl<T>(a: seq<T>)
    ensures Subseq(a, a)
  {
    if a != [] {
      SubseqRefl(a[1..]);
    }
  }

  lemma {:induction false} SubseqTrans<T>(a: seq<T>, b: seq<T>, c: seq<T>)
    requires Subseq(a, b) && Subseq(b, c)
    ensures Subseq(a, c)
    decreases |c|, |b|
  {
    if a != [] && b != [] {
      if b[0] == c[0] && Subseq(b[1..], c[1..]) {
        if a[0] == b[0] && Subseq(a[1..], b[1..]) {
          SubseqTrans(a[1..], b[1..], c[1..]);
        } else {
          SubseqTrans(a, b[1..], c[1..]);
        }
      } else {
        SubseqTrans(a, b, c[1..]);
      }
    }
  }

  lemma {:induction false} SubseqConcat<T>(a: seq<T>, b: seq<T>, c: seq<T>, d: seq<T>)
    requires Subseq(a, b) && Subseq(c, d)
    ensures Subseq(a + c, b + d)
    decreases |b|
  {
    if b == [] {
      assert a + c == c && b + d == d;
    } else {
      assert (b + d)[0] == b[0] && (b + d)[1..] == b[1..] + d;
      if a != [] && a[0] == b[0] && Subseq(a[1..], b[1..]) {
        SubseqConcat(a[1..], b[1..], c, d);
        assert (a + c)[0] == a[0] && (a + c)[1..] == a[1..] + c;
      } else {
        SubseqConcat(a, b[1..], c, d);
      }
    }
  }

  lemma {:induction false} SubseqFilter<T>(a: seq<T>, b: seq<T>, f: T -> bool)
    requires Subseq(a, b)
    ensures Subseq(Filter(a, f), Filter(b, f))
    decreases |b|
  {
    if a != [] {
      var rest := Filter(b[1..], f);
      if a[0] == b[0] && Subseq(a[1..], b[1..]) {
        SubseqFilter(a[1..], b[1..], f);
        if f(a[0]) {
          assert ([a[0]] + Filter(a[1..], f))[1..] == Filter(a[1..], f);
          assert ([b[0]] + rest)[1..] == rest;
        } else {
          assert [] + Filter(a[1..], f) == Filter(a[1..], f) && [] + rest == rest;
        }
      } else {
        SubseqFilter(a, b[1..], f);
        if f(b[0]) {
          assert ([b[0]] + rest)[1..] == rest;
        } else {
          assert [] + rest == rest;
        }
      }
    }
  }

  lemma {:induction false} TakePrefix<T>(s: seq<T>, n: nat)
    requires n <= |s|
    ensures Subseq(s[..n], s)
  {
    if n != 0 {
      TakePrefix(s[1..], n - 1);
      assert s[..n][1..] == s[1..][..n - 1];
    }
  }

  /** A subsequence of the same length is the whole sequence. */
  lemma {:induction false} SubseqSameLength<T>(a: seq<T>, b: seq<T>)
    requires Subseq(a, b)
    ensures |a| <= |b|
    ensures |a| == |b| ==> a == b
    decreases |b|
  {
    if a != [] {
      if a[0] == b[0] && Subseq(a[1..], b[1..]) {
        SubseqSameLength(a[1..], b[1..]);
      } else {
        SubseqSameLength(a, b[1..]);
      }
    }
  }

  // ---- the laws of the transfers ----

  /** The channel keeps its contents and gains, in order, a subsequence of the buffer whose
      messages pass the filter; it never exceeds its bound. */
  lemma {:induction false} TransmitOrder<T>(outgoing: seq<T>, queue: seq<T>, cap: nat, f: T -> bool)
    requires |queue| <= cap
    ensures |Transmitted(outgoing, queue, cap, f)| <= cap
    ensures Subseq(Transmitted(outgoing, queue, cap, f), queue + outgoing)
    ensures forall x <- Transmitted(outgoing, queue, cap, f) :: x in queue || f(x)
    decreases |outgoing|
  {
    if outgoing == [] {
      assert queue + outgoing == queue;
      SubseqRefl(queue);
    } else {
      var rest := outgoing[1..];
      SubseqRefl(queue);
      if !f(outgoing[0]) {
        TransmitOrder(rest, queue, cap, f);
        SubseqRefl(rest);
        assert Subseq(rest, outgoing);
        SubseqConcat(queue, queue, rest, outgoing);
        SubseqTrans(Transmitted(rest, queue, cap, f), queue + rest, queue + outgoing);
      } else if |queue| < cap {
        TransmitOrder(rest, queue + [outgoing[0]], cap, f);
        assert queue + [outgoing[0]] + rest == queue + outgoing;
      } else {
        SubseqConcat(queue, queue, [], outgoing);
        assert queue + [] == queue;
      }
    }
  }

  lemma MultisetHead<T>(s: seq<T>)
    requires s != []
    ensures multiset(s) == multiset([s[0]]) + multiset(s[1..])
  {
    assert s == [s[0]] + s[1..];
  }

  lemma MultisetJoin<T>(a: seq<T>, b: seq<T>)
    ensures multiset(a + b) == multiset(a) + multiset(b)
  {
  }

  lemma MultisetShift<T>(x: multiset<T>, a: multiset<T>, b: multiset<T>, s: multiset<T>, t: multiset<T>, u: multiset<T>)
    requires a + b == s + t + u
    ensures a + (x + b) == s + t + (x + u)
  {
    forall e: T ensures (a + (x + b))[e] == (s + t + (x + u))[e] {
      assert (a + b)[e] == (s + t + u)[e];
    }
  }

  lemma MultisetAssoc<T>(a: multiset<T>, b: multiset<T>, c: multiset<T>)
    ensures (a + b) + c == a + (b + c)
  {
  }

  /** Every message offered is in the channel, refused by it or rejected by the filter. */
  lemma {:induction false} TransmitAccounts<T>(outgoing: seq<T>, queue: seq<T>, cap: nat, f: T -> bool)
    requires |queue| <= cap
    ensures multiset(queue) + multiset(outgoing)
         == multiset(Transmitted(outgoing, queue, cap, f))
          + multiset(RefusedByChannel(outgoing, queue, cap, f)) + multiset(FilteredOut(outgoing, queue, cap, f))
    ensures forall x <- FilteredOut(outgoing, queue, cap, f) :: !f(x)
    ensures RefusedByChannel(outgoing, queue, cap, f) != [] ==> |Transmitted(outgoing, queue, cap, f)| == cap
    decreases |outgoing|
  {
    if outgoing == [] {
      assert multiset(outgoing) == multiset{};
    } else {
      MultisetHead(outgoing);
      if !f(outgoing[0]) {
        TransmitAccounts(outgoing[1..], queue, cap, f);
        var dropped := FilteredOut(outgoing[1..], queue, cap, f);
        MultisetJoin([outgoing[0]], dropped);
        MultisetShift(multiset([outgoing[0]]), multiset(queue), multiset(outgoing[1..]),
                      multiset(Transmitted(outgoing, queue, cap, f)),
                      multiset(RefusedByChannel(outgoing, queue, cap, f)), multiset(dropped));
      } else if |queue| < cap {
        TransmitAccounts(outgoing[1..], queue + [outgoing[0]], cap, f);
        MultisetJoin(queue, [outgoing[0]]);
        MultisetAssoc(multiset(queue), multiset([outgoing[0]]), multiset(outgoing[1..]));
      } else {
        assert multiset(FilteredOut(outgoing, queue, cap, f)) == multiset{};
      }
    }
  }

  /** The channel refuses nothing exactly when the messages that pass the filter fit. */
  lemma {:induction false} TransmitFitsIff<T>(outgoing: seq<T>, queue: seq<T>, cap: nat, f: T -> bool)
    requires |queue| <= cap
    ensures RefusedByChannel(outgoing, queue, cap, f) == [] <==> |queue| + |Filter(outgoing, f)| <= cap
    decreases |outgoing|
  {
    if outgoing != [] {
      if !f(outgoing[0]) {
        TransmitFitsIff(outgoing[1..], queue, cap, f);
      } else if |queue| < cap {
        TransmitFitsIff(outgoing[1..], queue + [outgoing[0]], cap, f);
      }
    }
  }

  /** Buffer followed by channel only loses messages, in place; the buffer keeps its contents,
      gains messages that pass the filter, and never exceeds its capacity. */
  lemma {:induction false} ReceiveOrder<T>(queue: seq<T>, incoming: seq<T>, cap: nat, f: T -> bool)
    requires |incoming| <= cap
    ensures var (q, i) := Received(queue, incoming, cap, f);
            && |i| <= cap && |q| <= |queue| && incoming <= i
            && Subseq(i + q, incoming + queue)
            && (forall x <- i :: x in incoming || (f(x) && x in queue))
            && (forall x <- q :: x in queue)
    decreases |queue|
  {
    if queue == [] {
      SubseqRefl(incoming + queue);
    } else {
      var rest := queue[1..];
      SubseqRefl(incoming);
      SubseqRefl(rest);
      assert Subseq(rest, queue);
      SubseqConcat(incoming, incoming, rest, queue);
      if !f(queue[0]) {
        ReceiveOrder(rest, incoming, cap, f);
        var (q, i) := Received(queue, incoming, cap, f);
        SubseqTrans(i + q, incoming + rest, incoming + queue);
      } else if |incoming| < cap {
        ReceiveOrder(rest, incoming + [queue[0]], cap, f);
        assert incoming + [queue[0]] + rest == incoming + queue;
      }
    }
  }

  /** Every message of the channel stays, is buffered, is rejected by the filter, or is the one
      message popped before the buffer was found full. */
  lemma {:induction false} ReceiveAccounts<T>(queue: seq<T>, incoming: seq<T>, cap: nat, f: T -> bool)
    requires |incoming| <= cap
    ensures var (q, i) := Received(queue, incoming, cap, f);
            && multiset(incoming) + multiset(queue)
               == multiset(i) + multiset(q)
                + multiset(RefusedByBuffer(queue, incoming, cap, f)) + multiset(FilteredIn(queue, incoming, cap, f))
            && (RefusedByBuffer(queue, incoming, cap, f) != [] ==> |i| == cap)
            && (RefusedByBuffer(queue, incoming, cap, f) == [] ==> q == [])
    ensures |RefusedByBuffer(queue, incoming, cap, f)| <= 1
    ensures forall x <- FilteredIn(queue, incoming, cap, f) :: !f(x)
    decreases |queue|
  {
    if queue == [] {
      assert multiset(queue) == multiset{};
    } else {
      MultisetHead(queue);
      if !f(queue[0]) {
        ReceiveAccounts(queue[1..], incoming, cap, f);
        var dropped := FilteredIn(queue[1..], incoming, cap, f);
        var (q, i) := Received(queue, incoming, cap, f);
        MultisetJoin([queue[0]], dropped);
        MultisetAssoc(multiset(i), multiset(q), multiset(RefusedByBuffer(queue, incoming, cap, f)));
        MultisetShift(multiset([queue[0]]), multiset(incoming), multiset(queue[1..]),
                      multiset(i) + multiset(q),
                      multiset(RefusedByBuffer(queue, incoming, cap, f)), multiset(dropped));
      } else if |incoming| < cap {
        ReceiveAccounts(queue[1..], incoming + [queue[0]], cap, f);
        MultisetJoin(incoming, [queue[0]]);
        MultisetAssoc(multiset(incoming), multiset([queue[0]]), multiset(queue[1..]));
      } else {
        assert multiset(FilteredIn(queue, incoming, cap, f)) == multiset{};
      }
    }
  }

  /** The buffer refuses nothing exactly when the messages that pass the filter fit. */
  lemma {:induction false} ReceiveFitsIff<T>(queue: seq<T>, incoming: seq<T>, cap: nat, f: T -> bool)
    requires |incoming| <= cap
    ensures RefusedByBuffer(queue, incoming, cap, f) == [] <==> |incoming| + |Filter(queue, f)| <= cap
    decreases |queue|
  {
    if queue != [] {
      if !f(queue[0]) {
        ReceiveFitsIff(queue[1..], incoming, cap, f);
      } else if |incoming| < cap {
        ReceiveFitsIff(queue[1..], incoming + [queue[0]], cap, f);
      }
    }
  }

  // ---- the transfers in closed form ----

  /** A push keeps the buffer and takes the first messages of the batch, as many as fit. */
  lemma AcceptedIs<T>(outgoing: seq<T>, cap: nat, batch: seq<T>)
    requires |outgoing| <= cap
    ensures Accepted(outgoing, cap, batch) <= outgoing + batch
    ensures |Accepted(outgoing, cap, batch)| == if |outgoing| + |batch| <= cap then |outgoing| + |batch| else cap
  {
  }

  /** A send keeps the channel and adds the first messages that pass the filter, as many as fit. */
  lemma {:induction false} TransmittedIs<T>(outgoing: seq<T>, queue: seq<T>, cap: nat, f: T -> bool)
    requires |queue| <= cap
    ensures var all, sent := queue + Filter(outgoing, f), Transmitted(outgoing, queue, cap, f);
            sent <= all && |sent| == if |all| <= cap then |all| else cap
    decreases |outgoing|
  {
    if outgoing != [] {
      var rest := Filter(outgoing[1..], f);
      if !f(outgoing[0]) {
        TransmittedIs(outgoing[1..], queue, cap, f);
        assert [] + rest == rest;
      } else if |queue| < cap {
        TransmittedIs(outgoing[1..], queue + [outgoing[0]], cap, f);
        assert queue + ([outgoing[0]] + rest) == queue + [outgoing[0]] + rest;
      }
    }
  }

  /** A receive keeps the buffer and adds the first messages that pass the filter, as many as fit. It
      empties the channel, unless a message that passes finds the buffer full: then it takes the
      messages up to and including that one, which is gone, and leaves the rest. */
  lemma {:induction false} ReceivedIs<T>(queue: seq<T>, incoming: seq<T>, cap: nat, f: T -> bool) returns (n: nat)
    requires |incoming| <= cap
    ensures var (q, i) := Received(queue, incoming, cap, f);
            var all := incoming + Filter(queue, f);
            && i <= all && |i| == (if |all| <= cap then |all| else cap)
            && n <= |queue| && q == queue[n..]
            && (|all| <= cap ==> n == |queue|)
            && (|all| > cap ==> n > 0 && f(queue[n - 1]) && |incoming| + |Filter(queue[..n - 1], f)| == cap)
    decreases |queue|
  {
    if queue == [] {
      n := 0;
    } else {
      var rest := queue[1..];
      if !f(queue[0]) {
        n := ReceivedIs(rest, incoming, cap, f);
        n := n + 1;
        assert [] + Filter(rest, f) == Filter(rest, f);
      } else if |incoming| < cap {
        n := ReceivedIs(rest, incoming + [queue[0]], cap, f);
        n := n + 1;
        assert incoming + ([queue[0]] + Filter(rest, f)) == incoming + [queue[0]] + Filter(rest, f);
      } else {
        n := 1;
      }
      if n > 1 {
        assert queue[..n - 1][1..] == rest[..n - 2];
      }
    }
  }
}
