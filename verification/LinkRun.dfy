/** Runs of a link: any sequence of pushes, sends, receives and takes, with fixed buffer sizes
    and pure filters (src/components/interface.rs, src/components/bgp/bgp_session.rs). */
module LinkRuns {
  import opened Wrappers
  import opened Links

  /** The capacities and the two filters. */
  datatype Config<!T> = Config(outgoing: nat, channel: nat, incoming: nat, outFilter: T -> bool, inFilter: T -> bool)

  /** The contents of the three buffers, and everything taken from the last one. */
  datatype Link<T> = Link(outgoing: seq<T>, queue: seq<T>, incoming: seq<T>, delivered: seq<T>)

  datatype LinkOp<T> = Push(batch: seq<T>) | Send | Receive | Take

  /** A link with the record of what was pushed and of what was lost where: at the full outgoing
      buffer, at the full channel, at the full incoming buffer, and at the two filters. */
  datatype Ledger<T> = Ledger(
    link: Link<T>,
    pushed: seq<T>,
    overflowed: multiset<T>,
    refused: multiset<T>,
    lost: multiset<T>,
    rejectedOut: multiset<T>,
    rejectedIn: multiset<T>)

  function Empty<T>(): Ledger<T> {
    Ledger(Link([], [], [], []), [], multiset{}, multiset{}, multiset{}, multiset{}, multiset{})
  }

  predicate Fits<T>(c: Config<T>, l: Link<T>) {
    |l.outgoing| <= c.outgoing && |l.queue| <= c.channel && |l.incoming| <= c.incoming
  }

  function Perform<T>(c: Config<T>, l: Link<T>, op: LinkOp<T>): Link<T>
    requires Fits(c, l)
  {
    match op
    case Push(batch) => l.(outgoing := Accepted(l.outgoing, c.outgoing, batch))
    case Send => l.(outgoing := [], queue := Transmitted(l.outgoing, l.queue, c.channel, c.outFilter))
    case Receive =>
      var (q, i) := Received(l.queue, l.incoming, c.incoming, c.inFilter);
      l.(queue := q, incoming := i)
    case Take => l.(incoming := [], delivered := l.delivered + l.incoming)
  }

  /** The operation, entered in the ledger. */
  function Enter<T>(c: Config<T>, d: Ledger<T>, op: LinkOp<T>): Ledger<T>
    requires Fits(c, d.link)
  {
    var l, after := d.link, d.(link := Perform(c, d.link, op));
    match op
    case Push(batch) =>
      var room := c.outgoing - |l.outgoing|;
      after.(pushed := d.pushed + batch,
             overflowed := d.overflowed + if |batch| <= room then multiset{} else multiset(batch[room..]))
    case Send =>
      after.(refused := d.refused + multiset(RefusedByChannel(l.outgoing, l.queue, c.channel, c.outFilter)),
             rejectedOut := d.rejectedOut + multiset(FilteredOut(l.outgoing, l.queue, c.channel, c.outFilter)))
    case Receive =>
      after.(lost := d.lost + multiset(RefusedByBuffer(l.queue, l.incoming, c.incoming, c.inFilter)),
             rejectedIn := d.rejectedIn + multiset(FilteredIn(l.queue, l.incoming, c.incoming, c.inFilter)))
    case Take => after
  }

  /** Everything still on the link or delivered, oldest first. */
  function Line<T>(l: Link<T>): seq<T> {
    l.delivered + (l.incoming + (l.queue + l.outgoing))
  }

  function Both<T>(c: Config<T>): T -> bool {
    x => c.outFilter(x) && c.inFilter(x)
  }

  /** The part of the line that has passed, or will pass, both filters. */
  function Passing<T>(c: Config<T>, l: Link<T>): seq<T> {
    l.delivered + (l.incoming + (Filter(l.queue, c.inFilter) + Filter(l.outgoing, Both(c))))
  }

  // ---- order ----

  ghost predicate Ordered<T>(c: Config<T>, d: Ledger<T>) {
    && Fits(c, d.link)
    && Subseq(Line(d.link), d.pushed)
    && (forall x <- d.link.queue :: c.outFilter(x))
    && (forall x <- d.link.incoming :: c.outFilter(x) && c.inFilter(x))
    && (forall x <- d.link.delivered :: c.outFilter(x) && c.inFilter(x))
  }

  lemma PushOrdered<T>(c: Config<T>, d: Ledger<T>, batch: seq<T>)
    requires Ordered(c, d)
    ensures Ordered(c, Enter(c, d, Push(batch)))
  {
    var l := d.link;
    var n := if |batch| <= c.outgoing - |l.outgoing| then |batch| else c.outgoing - |l.outgoing|;
    hide Subseq, Line;
    TakePrefix(batch, n);
    SubseqConcat(Line(l), d.pushed, batch[..n], batch);
    LineGrows(l, batch[..n]);
    assert Accepted(l.outgoing, c.outgoing, batch) == l.outgoing + batch[..n];
  }

  lemma LineGrows<T>(l: Link<T>, more: seq<T>)
    ensures Line(l.(outgoing := l.outgoing + more)) == Line(l) + more
  {
    assert l.delivered + (l.incoming + (l.queue + (l.outgoing + more)))
        == (l.delivered + (l.incoming + (l.queue + l.outgoing))) + more;
  }

  lemma SendOrdered<T>(c: Config<T>, d: Ledger<T>)
    requires Ordered(c, d)
    ensures Ordered(c, Enter(c, d, Send))
  {
    var l := d.link;
    var q := Transmitted(l.outgoing, l.queue, c.channel, c.outFilter);
    TransmitOrder(l.outgoing, l.queue, c.channel, c.outFilter);
    assert q + [] == q;
    SubseqRefl(l.incoming);
    SubseqRefl(l.delivered);
    SubseqConcat(l.incoming, l.incoming, q, l.queue + l.outgoing);
    SubseqConcat(l.delivered, l.delivered, l.incoming + q, l.incoming + (l.queue + l.outgoing));
    SubseqTrans(l.delivered + (l.incoming + q), Line(l), d.pushed);
  }

  lemma ReceiveOrdered<T>(c: Config<T>, d: Ledger<T>)
    requires Ordered(c, d)
    ensures Ordered(c, Enter(c, d, Receive))
  {
    var l := d.link;
    var (q, i) := Received(l.queue, l.incoming, c.incoming, c.inFilter);
    ReceiveOrder(l.queue, l.incoming, c.incoming, c.inFilter);
    SubseqRefl(l.outgoing);
    SubseqRefl(l.delivered);
    SubseqConcat(i + q, l.incoming + l.queue, l.outgoing, l.outgoing);
    SubseqConcat(l.delivered, l.delivered, (i + q) + l.outgoing, (l.incoming + l.queue) + l.outgoing);
    assert (i + q) + l.outgoing == i + (q + l.outgoing);
    assert (l.incoming + l.queue) + l.outgoing == l.incoming + (l.queue + l.outgoing);
    SubseqTrans(l.delivered + (i + (q + l.outgoing)), Line(l), d.pushed);
  }

  lemma TakeOrdered<T>(c: Config<T>, d: Ledger<T>)
    requires Ordered(c, d)
    ensures Ordered(c, Enter(c, d, Take))
  {
    var l := d.link;
    assert Line(Perform(c, l, Take)) == Line(l);
  }

  // ---- accounts ----

  function Settled<T>(d: Ledger<T>): multiset<T> {
    d.overflowed + d.refused + d.lost + d.rejectedOut + d.rejectedIn
  }

  ghost predicate Balanced<T>(c: Config<T>, d: Ledger<T>) {
    && multiset(d.pushed) == multiset(Line(d.link)) + Settled(d)
    && (forall x <- d.rejectedOut :: !c.outFilter(x))
    && (forall x <- d.rejectedIn :: !c.inFilter(x))
  }

  lemma LineBag<T>(l: Link<T>)
    ensures multiset(Line(l))
         == multiset(l.delivered) + multiset(l.incoming) + multiset(l.queue) + multiset(l.outgoing)
  {
  }

  // Bags of the line (delivered, incoming, queue, outgoing) and of the five ways to leave it,
  // before and after an operation.

  lemma PushBags<T>(p: multiset<T>, d: multiset<T>, i: multiset<T>, q: multiset<T>, o: multiset<T>,
                    over: multiset<T>, others: multiset<T>, taken: multiset<T>, dropped: multiset<T>)
    requires p == d + i + q + o + (over + others)
    ensures p + (taken + dropped) == d + i + q + (o + taken) + ((over + dropped) + others)
  {
    forall x: T ensures (p + (taken + dropped))[x] == (d + i + q + (o + taken) + ((over + dropped) + others))[x] {
      assert p[x] == (d + i + q + o + (over + others))[x];
    }
  }

  lemma SendBags<T>(p: multiset<T>, d: multiset<T>, i: multiset<T>, q: multiset<T>, o: multiset<T>,
                    refused: multiset<T>, rejected: multiset<T>, others: multiset<T>,
                    q': multiset<T>, r: multiset<T>, f: multiset<T>)
    requires p == d + i + q + o + (refused + rejected + others) && q + o == q' + r + f
    ensures p == d + i + q' + multiset{} + ((refused + r) + (rejected + f) + others)
  {
    forall x: T ensures p[x] == (d + i + q' + multiset{} + ((refused + r) + (rejected + f) + others))[x] {
      assert p[x] == (d + i + q + o + (refused + rejected + others))[x];
      assert (q + o)[x] == (q' + r + f)[x];
    }
  }

  lemma ReceiveBags<T>(p: multiset<T>, d: multiset<T>, i: multiset<T>, q: multiset<T>, o: multiset<T>,
                       lost: multiset<T>, rejected: multiset<T>, others: multiset<T>,
                       i': multiset<T>, q': multiset<T>, r: multiset<T>, f: multiset<T>)
    requires p == d + i + q + o + (lost + rejected + others) && i + q == i' + q' + r + f
    ensures p == d + i' + q' + o + ((lost + r) + (rejected + f) + others)
  {
    forall x: T ensures p[x] == (d + i' + q' + o + ((lost + r) + (rejected + f) + others))[x] {
      assert p[x] == (d + i + q + o + (lost + rejected + others))[x];
      assert (i + q)[x] == (i' + q' + r + f)[x];
    }
  }

  lemma SettledSplit<T>(d: Ledger<T>)
    ensures Settled(d) == d.overflowed + (d.refused + d.lost + d.rejectedOut + d.rejectedIn)
    ensures Settled(d) == d.refused + d.rejectedOut + (d.overflowed + d.lost + d.rejectedIn)
    ensures Settled(d) == d.lost + d.rejectedIn + (d.overflowed + d.refused + d.rejectedOut)
  {
  }

  lemma PushBalanced<T>(c: Config<T>, d: Ledger<T>, batch: seq<T>)
    requires Fits(c, d.link) && Balanced(c, d)
    ensures Balanced(c, Enter(c, d, Push(batch)))
  {
    var l, d' := d.link, Enter(c, d, Push(batch));
    var room := c.outgoing - |l.outgoing|;
    var n := if |batch| <= room then |batch| else room;
    LineBag(l);
    LineBag(d'.link);
    SettledSplit(d);
    SettledSplit(d');
    assert batch == batch[..n] + batch[n..];
    assert d'.link.outgoing == l.outgoing + batch[..n];
    assert d'.overflowed == d.overflowed + multiset(batch[n..]);
    hide Line, Settled, Enter, Perform;
    PushBags(multiset(d.pushed), multiset(l.delivered), multiset(l.incoming), multiset(l.queue), multiset(l.outgoing),
             d.overflowed, d.refused + d.lost + d.rejectedOut + d.rejectedIn,
             multiset(batch[..n]), multiset(batch[n..]));
  }

  lemma SendBalanced<T>(c: Config<T>, d: Ledger<T>)
    requires Fits(c, d.link) && Balanced(c, d)
    ensures Balanced(c, Enter(c, d, Send))
  {
    var l, d' := d.link, Enter(c, d, Send);
    TransmitAccounts(l.outgoing, l.queue, c.channel, c.outFilter);
    LineBag(l);
    LineBag(d'.link);
    SettledSplit(d);
    SettledSplit(d');
    hide Line, Settled, Transmitted, RefusedByChannel, FilteredOut;
    SendBags(multiset(d.pushed), multiset(l.delivered), multiset(l.incoming), multiset(l.queue), multiset(l.outgoing),
             d.refused, d.rejectedOut, d.overflowed + d.lost + d.rejectedIn, multiset(d'.link.queue),
             multiset(RefusedByChannel(l.outgoing, l.queue, c.channel, c.outFilter)),
             multiset(FilteredOut(l.outgoing, l.queue, c.channel, c.outFilter)));
  }

  lemma ReceiveBalanced<T>(c: Config<T>, d: Ledger<T>)
    requires Fits(c, d.link) && Balanced(c, d)
    ensures Balanced(c, Enter(c, d, Receive))
  {
    var l, d' := d.link, Enter(c, d, Receive);
    ReceiveAccounts(l.queue, l.incoming, c.incoming, c.inFilter);
    LineBag(l);
    LineBag(d'.link);
    SettledSplit(d);
    SettledSplit(d');
    hide Line, Settled, Received, RefusedByBuffer, FilteredIn;
    ReceiveBags(multiset(d.pushed), multiset(l.delivered), multiset(l.incoming), multiset(l.queue),
                multiset(l.outgoing),
                d.lost, d.rejectedIn, d.overflowed + d.refused + d.rejectedOut,
                multiset(d'.link.incoming), multiset(d'.link.queue),
                multiset(RefusedByBuffer(l.queue, l.incoming, c.incoming, c.inFilter)),
                multiset(FilteredIn(l.queue, l.incoming, c.incoming, c.inFilter)));
  }

  // ---- whole runs ----

  /** A loss leaves the buffer it fell at full; a receive loses at most one message. */
  lemma LossMeansFull<T>(c: Config<T>, d: Ledger<T>, op: LinkOp<T>)
    requires Fits(c, d.link)
    ensures var d' := Enter(c, d, op);
            && (d'.overflowed != d.overflowed ==> op.Push? && |d'.link.outgoing| == c.outgoing)
            && (d'.refused != d.refused ==> op.Send? && |d'.link.queue| == c.channel)
            && (d'.lost != d.lost ==> op.Receive? && |d'.link.incoming| == c.incoming && |d'.lost| == |d.lost| + 1)
  {
    var l := d.link;
    TransmitAccounts(l.outgoing, l.queue, c.channel, c.outFilter);
    ReceiveAccounts(l.queue, l.incoming, c.incoming, c.inFilter);
  }

  function Book<T>(c: Config<T>, d: Ledger<T>, ops: seq<LinkOp<T>>): Ledger<T>
    requires Ordered(c, d)
    decreases |ops|
  {
    if ops == [] then d
    else
      StepOrdered(c, d, ops[0]);
      Book(c, Enter(c, d, ops[0]), ops[1..])
  }

  lemma StepOrdered<T>(c: Config<T>, d: Ledger<T>, op: LinkOp<T>)
    requires Ordered(c, d)
    ensures Ordered(c, Enter(c, d, op))
  {
    hide Ordered;
    match op {
      case Push(batch) => PushOrdered(c, d, batch);
      case Send => SendOrdered(c, d);
      case Receive => ReceiveOrdered(c, d);
      case Take => TakeOrdered(c, d);
    }
  }

  lemma StepBalanced<T>(c: Config<T>, d: Ledger<T>, op: LinkOp<T>)
    requires Fits(c, d.link) && Balanced(c, d)
    ensures Balanced(c, Enter(c, d, op))
  {
    match op {
      case Push(batch) => PushBalanced(c, d, batch);
      case Send => SendBalanced(c, d);
      case Receive => ReceiveBalanced(c, d);
      case Take => assert Line(Perform(c, d.link, Take)) == Line(d.link);
    }
  }

  /** The ledger of any run: what is delivered and under way is, in order and position by
      position, a subsequence of what was pushed; the buffers stay within their capacities; and
      every pushed message is on the line, fell at one of the three full buffers, or was rejected
      by the filter that rejects it. */
  lemma {:induction false} RunLedger<T>(c: Config<T>, d: Ledger<T>, ops: seq<LinkOp<T>>)
    requires Ordered(c, d) && Balanced(c, d)
    ensures Ordered(c, Book(c, d, ops)) && Balanced(c, Book(c, d, ops))
    decreases |ops|
  {
    if ops != [] {
      StepOrdered(c, d, ops[0]);
      StepBalanced(c, d, ops[0]);
      RunLedger(c, Enter(c, d, ops[0]), ops[1..]);
    }
  }

  // ---- what passes both filters ----

  lemma PassingIsFiltered<T>(c: Config<T>, d: Ledger<T>)
    requires Ordered(c, d)
    ensures Passing(c, d.link) == Filter(Line(d.link), Both(c))
  {
    var l, both := d.link, Both(c);
    FilterAll(l.delivered, both);
    FilterAll(l.incoming, both);
    FilterSame(l.queue, c.inFilter, both);
    FilterAppend(l.queue, l.outgoing, both);
    FilterAppend(l.incoming, l.queue + l.outgoing, both);
    FilterAppend(l.delivered, l.incoming + (l.queue + l.outgoing), both);
  }

  /** After any run the delivered messages, followed by those under way that will pass, are a
      subsequence of the pushed messages that pass both filters. */
  lemma PassingInOrder<T>(c: Config<T>, ops: seq<LinkOp<T>>)
    ensures var d := Start(c); Ordered(c, d)
    ensures var e := Book(c, Start(c), ops);
            Subseq(Passing(c, e.link), Filter(e.pushed, Both(c)))
  {
    StartHolds(c);
    RunLedger(c, Start(c), ops);
    var e := Book(c, Start(c), ops);
    PassingIsFiltered(c, e);
    SubseqFilter(Line(e.link), e.pushed, Both(c));
  }

  function Start<T>(c: Config<T>): Ledger<T> {
    Empty()
  }

  lemma StartHolds<T>(c: Config<T>)
    ensures Ordered(c, Start(c)) && Balanced(c, Start(c))
  {
    var l := Start(c).link;
    assert Line(l) == [];
  }

  // ---- the lossless case ----

  /** The operation's messages fit the buffer they go to. */
  predicate HasRoom<T>(c: Config<T>, l: Link<T>, op: LinkOp<T>) {
    match op
    case Push(batch) => |l.outgoing| + |batch| <= c.outgoing
    case Send => |l.queue| + |Filter(l.outgoing, c.outFilter)| <= c.channel
    case Receive => |l.incoming| + |Filter(l.queue, c.inFilter)| <= c.incoming
    case Take => true
  }

  predicate AlwaysRoom<T>(c: Config<T>, d: Ledger<T>, ops: seq<LinkOp<T>>)
    requires Ordered(c, d)
    decreases |ops|
  {
    ops == [] || (HasRoom(c, d.link, ops[0])
                  && (StepOrdered(c, d, ops[0]); AlwaysRoom(c, Enter(c, d, ops[0]), ops[1..])))
  }

  predicate NoLoss<T>(d: Ledger<T>) {
    d.overflowed == multiset{} && d.refused == multiset{} && d.lost == multiset{}
  }

  /** What was lost before an operation is still lost after it; nothing more is lost by it
      exactly when its messages fit. */
  lemma StepLosesIff<T>(c: Config<T>, d: Ledger<T>, op: LinkOp<T>)
    requires Fits(c, d.link)
    ensures NoLoss(Enter(c, d, op)) <==> NoLoss(d) && HasRoom(c, d.link, op)
  {
    var l := d.link;
    TransmitFitsIff(l.outgoing, l.queue, c.channel, c.outFilter);
    ReceiveFitsIff(l.queue, l.incoming, c.incoming, c.inFilter);
    SomethingIn(RefusedByChannel(l.outgoing, l.queue, c.channel, c.outFilter));
    SomethingIn(RefusedByBuffer(l.queue, l.incoming, c.incoming, c.inFilter));
    var room := c.outgoing - |l.outgoing|;
    if op.Push? && |op.batch| > room {
      SomethingIn(op.batch[room..]);
    }
  }

  lemma SomethingIn<T>(s: seq<T>)
    ensures multiset(s) == multiset{} <==> s == []
  {
    if s != [] {
      assert s[0] in multiset(s);
    }
  }

  /** A run loses nothing exactly when every batch fits the room it meets. */
  lemma {:induction false} NoLossIffRoom<T>(c: Config<T>, d: Ledger<T>, ops: seq<LinkOp<T>>)
    requires Ordered(c, d)
    ensures NoLoss(Book(c, d, ops)) <==> NoLoss(d) && AlwaysRoom(c, d, ops)
    decreases |ops|
  {
    hide NoLoss, HasRoom, Enter;
    if ops != [] {
      StepLosesIff(c, d, ops[0]);
      StepOrdered(c, d, ops[0]);
      NoLossIffRoom(c, Enter(c, d, ops[0]), ops[1..]);
    }
  }

  lemma {:induction false} FilterBag<T>(s: seq<T>, f: T -> bool, x: T)
    ensures multiset(Filter(s, f))[x] == if f(x) then multiset(s)[x] else 0
  {
    if s != [] {
      FilterBag(s[1..], f, x);
      MultisetHead(s);
      MultisetJoin(if f(s[0]) then [s[0]] else [], Filter(s[1..], f));
    }
  }

  lemma BagSize<T>(a: seq<T>, b: seq<T>)
    requires forall x: T :: multiset(a)[x] == multiset(b)[x]
    ensures |a| == |b|
  {
    assert multiset(a) == multiset(b);
    assert |multiset(a)| == |a| && |multiset(b)| == |b|;
  }

  /** Everything that fell at a full buffer. */
  function Fallen<T>(d: Ledger<T>): multiset<T> {
    d.overflowed + d.refused + d.lost
  }

  /** A message that passes both filters was pushed as often as it is on the line or fell at a
      full buffer. */
  lemma PassingBag<T>(c: Config<T>, d: Ledger<T>, x: T)
    requires Balanced(c, d) && Both(c)(x)
    ensures multiset(Filter(d.pushed, Both(c)))[x]
         == multiset(Filter(Line(d.link), Both(c)))[x] + Fallen(d)[x]
  {
    hide Line;
    var line := Line(d.link);
    FilterBag(line, Both(c), x);
    FilterBag(d.pushed, Both(c), x);
    assert x !in d.rejectedOut && x !in d.rejectedIn;
    assert multiset(d.pushed)[x] == (multiset(line) + Settled(d))[x];
  }

  /** What has been delivered or will pass is all of what passes both filters exactly when no
      message that passes both filters fell at a full buffer. */
  lemma CompleteIff<T>(c: Config<T>, d: Ledger<T>)
    requires Ordered(c, d) && Balanced(c, d)
    ensures Passing(c, d.link) == Filter(d.pushed, Both(c)) <==> forall x <- Fallen(d) :: !Both(c)(x)
  {
    PassingIsFiltered(c, d);
    SubseqFilter(Line(d.link), d.pushed, Both(c));
    hide Line, Ordered, NoLoss, Filter, Passing, Fallen;
    var a, b := Filter(Line(d.link), Both(c)), Filter(d.pushed, Both(c));
    if a == b {
      forall x | x in Fallen(d) ensures !Both(c)(x) {
        if Both(c)(x) {
          PassingBag(c, d, x);
        }
      }
    }
    if forall x <- Fallen(d) :: !Both(c)(x) {
      forall x: T ensures multiset(a)[x] == multiset(b)[x] {
        if Both(c)(x) {
          PassingBag(c, d, x);
        } else {
          FilterBag(Line(d.link), Both(c), x);
          FilterBag(d.pushed, Both(c), x);
        }
      }
      BagSize(a, b);
      SubseqSameLength(a, b);
    }
  }

  /** When every batch fits the room it meets, nothing is lost or reordered: the delivered
      messages, followed by those under way that will pass, are exactly the pushed messages that
      pass both filters; once the link is empty, the delivered ones are exactly those. */
  lemma Lossless<T>(c: Config<T>, ops: seq<LinkOp<T>>)
    requires (StartHolds(c); AlwaysRoom(c, Start(c), ops))
    ensures var e := Book(c, Start(c), ops);
            && Passing(c, e.link) == Filter(e.pushed, Both(c))
            && (e.link.incoming == e.link.queue == e.link.outgoing == [] ==>
                  e.link.delivered == Filter(e.pushed, Both(c)))
  {
    StartHolds(c);
    RunLedger(c, Start(c), ops);
    NoLossIffRoom(c, Start(c), ops);
    CompleteIff(c, Book(c, Start(c), ops));
  }
}
