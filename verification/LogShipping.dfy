/**
 Log shipping: a bounded queue of records the server has not taken, and a shipper that posts it in batches. Records
 are added, and the oldest evicted, at any point while a batch is in flight.
 */
module LogShipping {
  import opened Options


  const QUEUE_LIMIT: nat := 1000
  const MAX_BATCH: nat := 50
  const MAX_BATCH_BYTES: nat := 48 * 1024
  const WARNING_BYTES: nat := 200

  /** A record as it is queued: cleaned, with the size of its JSON. */
  datatype Record = Record(text: nat, size: nat)

  /** A posted line: a record, or the warning that so many were dropped. */
  datatype Line = Dropped(count: nat) | Kept(record: Record)

  datatype Batch = Batch(lines: seq<Line>, next: nat, dropped: nat)

  /** `base` is the position, among all records ever added, of the first one queued. */
  datatype Queue = Queue(items: seq<Record>, base: nat, dropped: nat)

  // ------------------------------------------------------------------ the queue

  function Bytes(records: seq<Record>): nat {
    if records == [] then 0 else Bytes(records[..|records| - 1]) + records[|records| - 1].size
  }

  function Lines(records: seq<Record>): (r: seq<Line>)
    ensures |r| == |records|
    ensures forall k :: 0 <= k < |r| ==> r[k] == Kept(records[k])
  {
    seq(|records|, k requires 0 <= k < |records| => Kept(records[k]))
  }

  function Warning(dropped: nat): seq<Line> {
    if dropped > 0 then [Dropped(dropped)] else []
  }

  function Added(q: Queue, r: Record): Queue {
    if |q.items| >= QUEUE_LIMIT then Queue(q.items[1..] + [r], q.base + 1, q.dropped + 1)
    else q.(items := q.items + [r])
  }

  /** What stays once the server has taken everything before `next`: evictions since may have gone further already. */
  function Acked(q: Queue, next: nat, dropped: nat): Queue {
    var n := if next <= q.base then 0 else if next - q.base < |q.items| then next - q.base else |q.items|;
    Queue(q.items[n..], q.base + n, if dropped <= q.dropped then q.dropped - dropped else 0)
  }

  /** A batch of the first `k` records keeps both limits; one line alone always keeps the second. */
  predicate Room(q: Queue, k: nat, maxRecords: nat, maxBytes: nat)
    requires k <= |q.items|
  {
    var w := |Warning(q.dropped)|;
    w + k <= maxRecords && (w + k <= 1 || w * WARNING_BYTES + Bytes(q.items[..k]) <= maxBytes)
  }

  /** The batch of the longest run of oldest records that fits, after the warning when there is one. */
  ghost predicate IsPeek(q: Queue, b: Batch, maxRecords: nat, maxBytes: nat) {
    && q.base <= b.next <= q.base + |q.items|
    && b.dropped == q.dropped
    && b.lines == Warning(q.dropped) + Lines(q.items[..b.next - q.base])
    && (b.next == q.base || Room(q, b.next - q.base, maxRecords, maxBytes))
    && forall k :: b.next - q.base < k <= |q.items| ==> !Room(q, k, maxRecords, maxBytes)
  }

  lemma {:induction false} BytesGrow(records: seq<Record>, j: nat, k: nat)
    requires j <= k <= |records|
    ensures Bytes(records[..j]) <= Bytes(records[..k])
    decreases k
  {
    if j < k {
      BytesGrow(records, j, k - 1);
      assert records[..k][..k - 1] == records[..k - 1];
    }
  }

  lemma RoomForFewer(q: Queue, j: nat, k: nat, maxRecords: nat, maxBytes: nat)
    requires j <= k <= |q.items| && Room(q, k, maxRecords, maxBytes)
    ensures Room(q, j, maxRecords, maxBytes)
  {
    BytesGrow(q.items, j, k);
  }

  class LogQueue {
    var items: seq<Record>
    var base: nat
    var dropped: nat

    ghost function Value(): Queue
      reads this
    {
      Queue(items, base, dropped)
    }

    constructor ()
      ensures Value() == Queue([], 0, 0)
    {
      items, base, dropped := [], 0, 0;
    }

    method Add(record: Record)
      modifies this
      ensures Value() == Added(old(Value()), record)
    {
      if |items| >= QUEUE_LIMIT {
        items, base, dropped := items[1..], base + 1, dropped + 1;
      }
      items := items + [record];
    }

    method Peek(maxRecords: nat, maxBytes: nat) returns (b: Batch)
      ensures IsPeek(Value(), b, maxRecords, maxBytes)
    {
      var lines := [];
      var size := 0;
      if dropped > 0 {
        lines, size := [Dropped(dropped)], WARNING_BYTES;
      }
      ghost var q := Value();
      var taken := 0;
      while taken < |items|
        invariant taken <= |items|
        invariant lines == Warning(dropped) + Lines(items[..taken])
        invariant size == |Warning(dropped)| * WARNING_BYTES + Bytes(items[..taken])
        invariant taken == 0 || Room(q, taken, maxRecords, maxBytes)
      {
        var it := items[taken];
        assert items[..taken + 1][..taken] == items[..taken];
        if |lines| >= maxRecords || (|lines| > 0 && size + it.size > maxBytes) {
          break;
        }
        assert Lines(items[..taken + 1]) == Lines(items[..taken]) + [Kept(it)];
        lines, size, taken := lines + [Kept(it)], size + it.size, taken + 1;
      }
      forall k | taken < k <= |items| ensures !Room(q, k, maxRecords, maxBytes) {
        if Room(q, k, maxRecords, maxBytes) { RoomForFewer(q, taken + 1, k, maxRecords, maxBytes); }
      }
      b := Batch(lines, base + taken, dropped);
    }

    method Ack(next: nat, reported: nat)
      modifies this
      ensures Value() == Acked(old(Value()), next, reported)
    {
      var n := if next <= base then 0 else if next - base < |items| then next - base else |items|;
      items, base := items[n..], base + n;
      dropped := if reported <= dropped then dropped - reported else 0;
    }
  }

  // ------------------------------------------------------------------ a flush nothing is added to

  function AllLines(batches: seq<Batch>): seq<Line> {
    if batches == [] then [] else AllLines(batches[..|batches| - 1]) + batches[|batches| - 1].lines
  }

  function RecordsOf(lines: seq<Line>): seq<Record> {
    if lines == [] then []
    else RecordsOf(lines[..|lines| - 1]) + if lines[|lines| - 1].Kept? then [lines[|lines| - 1].record] else []
  }

  function DropsOf(lines: seq<Line>): nat {
    if lines == [] then 0
    else DropsOf(lines[..|lines| - 1]) + if lines[|lines| - 1].Dropped? then lines[|lines| - 1].count else 0
  }

  lemma {:induction false} LinesAppend(a: seq<Line>, b: seq<Line>)
    ensures RecordsOf(a + b) == RecordsOf(a) + RecordsOf(b)
    ensures DropsOf(a + b) == DropsOf(a) + DropsOf(b)
    decreases |b|
  {
    if b == [] {
      assert a + b == a;
    } else {
      LinesAppend(a, b[..|b| - 1]);
      assert (a + b)[..|a + b| - 1] == a + b[..|b| - 1];
    }
  }

  lemma {:induction false} LinesCarry(records: seq<Record>)
    ensures RecordsOf(Lines(records)) == records && DropsOf(Lines(records)) == 0
    decreases |records|
  {
    if records != [] {
      var front := records[..|records| - 1];
      LinesCarry(front);
      assert Lines(records)[..|records| - 1] == Lines(front);
    }
  }

  /** A batch carries exactly the records it covers and the count it reports. */
  lemma BatchCarries(records: seq<Record>, dropped: nat)
    ensures RecordsOf(Warning(dropped) + Lines(records)) == records
    ensures DropsOf(Warning(dropped) + Lines(records)) == dropped
  {
    LinesAppend(Warning(dropped), Lines(records));
    LinesCarry(records);
    if dropped > 0 {
      assert Warning(dropped)[..0] == [];
    }
  }

  /**
   With the default limits a batch is empty only when there is nothing to tell: no record, however large, is stuck.
   */
  lemma PeekMakesProgress(q: Queue, b: Batch)
    requires IsPeek(q, b, MAX_BATCH, MAX_BATCH_BYTES)
    ensures b.lines == [] <==> q.items == [] && q.dropped == 0
    ensures q.dropped == 0 && q.items != [] ==> b.next > q.base
  {
    if q.dropped == 0 && q.items != [] && b.next == q.base {
      assert Room(q, 1, MAX_BATCH, MAX_BATCH_BYTES);
    }
  }

  lemma Regroup(a: seq<Record>, b: seq<Record>, c: seq<Record>)
    ensures (a + b) + c == a + (b + c)
  {
  }

  lemma SplitRecords(records: seq<Record>, n: nat)
    requires n <= |records|
    ensures records[..n] + records[n..] == records
  {
  }

  /** Acknowledging a batch at once removes exactly the records it covers, and the whole drop count. */
  lemma AckLeaves(q: Queue, b: Batch)
    requires IsPeek(q, b, MAX_BATCH, MAX_BATCH_BYTES)
    ensures Acked(q, b.next, b.dropped) == Queue(q.items[b.next - q.base..], b.next, 0)
    ensures b.lines != [] ==> b.next > q.base || (q.items[b.next - q.base..] == q.items && q.dropped > 0)
  {
    PeekMakesProgress(q, b);
  }

  /** What the batch carries and what stays are what was queued. */
  lemma AckTakesTheBatch(q: Queue, b: Batch)
    requires IsPeek(q, b, MAX_BATCH, MAX_BATCH_BYTES)
    ensures RecordsOf(b.lines) + Acked(q, b.next, b.dropped).items == q.items
    ensures DropsOf(b.lines) + Acked(q, b.next, b.dropped).dropped == q.dropped
  {
    var n := b.next - q.base;
    AckLeaves(q, b);
    BatchCarries(q.items[..n], b.dropped);
    SplitRecords(q.items, n);
  }

  lemma OneMoreBatch(posted: seq<Batch>, b: Batch)
    ensures RecordsOf(AllLines(posted + [b])) == RecordsOf(AllLines(posted)) + RecordsOf(b.lines)
    ensures DropsOf(AllLines(posted + [b])) == DropsOf(AllLines(posted)) + DropsOf(b.lines)
  {
    assert (posted + [b])[..|posted|] == posted;
    LinesAppend(AllLines(posted), b.lines);
  }

  /** The accepted batches and what is still queued make up what was queued before. */
  ghost predicate Conserved(was: Queue, posted: seq<Batch>, q: Queue) {
    RecordsOf(AllLines(posted)) + q.items == was.items && DropsOf(AllLines(posted)) + q.dropped == was.dropped
  }

  lemma AckConserves(was: Queue, posted: seq<Batch>, q: Queue, b: Batch)
    requires Conserved(was, posted, q) && IsPeek(q, b, MAX_BATCH, MAX_BATCH_BYTES)
    ensures Conserved(was, posted + [b], Acked(q, b.next, b.dropped))
  {
    AckTakesTheBatch(q, b);
    OneMoreBatch(posted, b);
    Regroup(RecordsOf(AllLines(posted)), RecordsOf(b.lines), Acked(q, b.next, b.dropped).items);
  }

  /** Acknowledges a batch the server took: nothing is lost, and less is left to tell. */
  method Ship(queue: LogQueue, b: Batch, ghost was: Queue, ghost posted: seq<Batch>)
    requires IsPeek(queue.Value(), b, MAX_BATCH, MAX_BATCH_BYTES) && b.lines != []
    requires Conserved(was, posted, queue.Value())
    modifies queue
    ensures Conserved(was, posted + [b], queue.Value())
    ensures |queue.items| < |old(queue.items)| ||
            (|queue.items| == |old(queue.items)| && queue.dropped < old(queue.dropped))
  {
    AckLeaves(queue.Value(), b);
    AckConserves(was, posted, queue.Value(), b);
    queue.Ack(b.next, b.dropped);
  }

  /**
   Sends batches until the queue is empty or a post fails; `accepts` says which posts the server takes. Every record
   that leaves the queue is in an accepted batch, in order, and the drops they report leave the pending count; when
   every post is accepted the queue ends empty.
   */
  method Drain(queue: LogQueue, accepts: nat -> bool) returns (posted: seq<Batch>)
    modifies queue
    ensures Conserved(old(queue.Value()), posted, queue.Value())
    ensures (queue.items == [] && queue.dropped == 0) || !accepts(|posted|)
    ensures forall i :: 0 <= i < |posted| ==> accepts(i) && posted[i].lines != []
  {
    ghost var was := queue.Value();
    posted := [];
    while true
      invariant Conserved(was, posted, queue.Value())
      invariant forall i :: 0 <= i < |posted| ==> accepts(i) && posted[i].lines != []
      decreases |queue.items|, queue.dropped
    {
      var b := queue.Peek(MAX_BATCH, MAX_BATCH_BYTES);
      PeekMakesProgress(queue.Value(), b);
      if b.lines == [] {
        return;
      }
      if !accepts(|posted|) {
        return;
      }
      Ship(queue, b, was, posted);
      posted := posted + [b];
    }
  }

  // ------------------------------------------------------------------ a flush with additions in between

  datatype Flight = Idle | Posting(from: nat, batch: Batch) | Posted(from: nat, batch: Batch)

  /** A batch the server took, and the position it was read from. */
  datatype Shipment = Shipment(from: nat, batch: Batch)

  /**
   The queue and the one batch in flight, with the history: all records added, the positions evicted, the posts taken.
   */
  datatype Sys = Sys(queue: Queue, flight: Flight, added: seq<Record>, evicted: set<nat>, posts: seq<Shipment>)

  datatype Step = Add(record: Record) | Peek(batch: Batch) | Accept | Refuse | Ack

  ghost predicate Enabled(y: Sys, step: Step) {
    match step
    case Add(_) => true
    case Peek(b) => y.flight.Idle? && b.lines != [] && IsPeek(y.queue, b, MAX_BATCH, MAX_BATCH_BYTES)
    case Accept => y.flight.Posting?
    case Refuse => y.flight.Posting?
    case Ack => y.flight.Posted?
  }

  function Apply(y: Sys, step: Step): Sys
    requires step.Accept? ==> y.flight.Posting?
    requires step.Ack? ==> y.flight.Posted?
  {
    match step
    case Add(r) =>
      y.(queue := Added(y.queue, r), added := y.added + [r],
      evicted := if |y.queue.items| >= QUEUE_LIMIT then y.evicted + {y.queue.base} else y.evicted)
    case Peek(b) => y.(flight := Posting(y.queue.base, b))
    case Accept => y.(flight := Posted(y.flight.from, y.flight.batch), posts :=
    y.posts + [Shipment(y.flight.from, y.flight.batch)])
    case Refuse => y.(flight := Idle)
    case Ack => y.(flight := Idle, queue := Acked(y.queue, y.flight.batch.next, y.flight.batch.dropped))
  }

  ghost predicate Carries(added: seq<Record>, s: Shipment) {
    && s.from <= s.batch.next <= |added|
    && s.batch.lines == Warning(s.batch.dropped) + Lines(added[s.from..s.batch.next])
  }

  /** The posts cover stretches of the added records, each past the ones before, all up to a position. */
  ghost predicate InOrder(added: seq<Record>, posts: seq<Shipment>, upTo: nat) {
    && (forall i :: 0 <= i < |posts| ==> Carries(added, posts[i]) && posts[i].batch.next <= upTo)
    && (forall i, j :: 0 <= i < j < |posts| ==> posts[i].batch.next <= posts[j].from)
  }

  ghost predicate Shipped(posts: seq<Shipment>, p: nat) {
    exists i :: 0 <= i < |posts| && posts[i].from <= p < posts[i].batch.next
  }

  function Reported(posts: seq<Shipment>): nat {
    if posts == [] then 0 else Reported(posts[..|posts| - 1]) + posts[|posts| - 1].batch.dropped
  }

  /** The part of the queue's drop count that a taken batch has told but not yet acknowledged. */
  function Told(y: Sys): nat {
    if y.flight.Posted? then y.flight.batch.dropped else 0
  }

  ghost predicate FlightInv(y: Sys) {
    match y.flight
    case Idle => InOrder(y.added, y.posts, y.queue.base)
    case Posting(from, b) =>
      && from <= y.queue.base && b.dropped <= y.queue.dropped && Carries(y.added, Shipment(from, b)) &&
         InOrder(y.added, y.posts, from)
    case Posted(from, b) =>
      && from <= y.queue.base && b.dropped <= y.queue.dropped && y.posts != [] &&
         y.posts[|y.posts| - 1] == Shipment(from, b)
      && InOrder(y.added, y.posts, b.next)
  }

  ghost predicate Inv(y: Sys) {
    && y.queue.base + |y.queue.items| == |y.added| && y.queue.items == y.added[y.queue.base..]
    && |y.queue.items| <= QUEUE_LIMIT
    && (forall p :: p in y.evicted ==> p < y.queue.base)
    && FlightInv(y)
    && (forall p :: 0 <= p < y.queue.base ==> p in y.evicted || Shipped(y.posts, p))
    && Reported(y.posts) + y.queue.dropped == |y.evicted| + Told(y)
  }

  lemma CarriesStill(added: seq<Record>, r: Record, s: Shipment)
    requires Carries(added, s)
    ensures Carries(added + [r], s)
  {
    assert (added + [r])[s.from..s.batch.next] == added[s.from..s.batch.next];
  }

  lemma InOrderStill(added: seq<Record>, r: Record, posts: seq<Shipment>, upTo: nat, further: nat)
    requires InOrder(added, posts, upTo) && upTo <= further
    ensures InOrder(added + [r], posts, further)
  {
    forall i | 0 <= i < |posts| ensures Carries(added + [r], posts[i]) { CarriesStill(added, r, posts[i]); }
  }

  lemma FlightStill(y: Sys, r: Record)
    requires Inv(y)
    ensures FlightInv(Apply(y, Add(r)))
  {
    var z := Apply(y, Add(r));
    if y.flight.Idle? {
      InOrderStill(y.added, r, y.posts, y.queue.base, z.queue.base);
    } else if y.flight.Posting? {
      InOrderStill(y.added, r, y.posts, y.flight.from, y.flight.from);
      CarriesStill(y.added, r, Shipment(y.flight.from, y.flight.batch));
    } else {
      InOrderStill(y.added, r, y.posts, y.flight.batch.next, y.flight.batch.next);
    }
  }

  lemma QueueStill(added: seq<Record>, q: Queue, r: Record)
    requires q.base + |q.items| == |added| && q.items == added[q.base..] && |q.items| <= QUEUE_LIMIT
    ensures var z := Added(q, r);
            z.base + |z.items| == |added| + 1 && z.items == (added + [r])[z.base..] && |z.items| <= QUEUE_LIMIT
  {
  }

  lemma AddKeepsInv(y: Sys, r: Record)
    requires Inv(y)
    ensures Inv(Apply(y, Add(r)))
  {
    var z := Apply(y, Add(r));
    FlightStill(y, r);
    QueueStill(y.added, y.queue, r);
    forall p | 0 <= p < z.queue.base ensures p in z.evicted || Shipped(z.posts, p) {
      if p < y.queue.base { assert p in y.evicted || Shipped(y.posts, p); }
    }
  }

  lemma PeekKeepsInv(y: Sys, b: Batch)
    requires Inv(y) && Enabled(y, Peek(b))
    ensures Inv(Apply(y, Peek(b)))
  {
    var n := b.next - y.queue.base;
    assert y.added[y.queue.base..][..n] == y.added[y.queue.base..b.next];
  }

  lemma AcceptKeepsInv(y: Sys)
    requires Inv(y) && y.flight.Posting?
    ensures Inv(Apply(y, Accept))
  {
    var z := Apply(y, Accept);
    assert z.posts[..|y.posts|] == y.posts;
    forall p | 0 <= p < y.queue.base ensures p in z.evicted || Shipped(z.posts, p) {
      if p !in y.evicted {
        var i :| 0 <= i < |y.posts| && y.posts[i].from <= p < y.posts[i].batch.next;
        assert z.posts[i] == y.posts[i];
      }
    }
  }

  lemma AckKeepsInv(y: Sys)
    requires Inv(y) && y.flight.Posted?
    ensures Inv(Apply(y, Ack))
  {
    var z := Apply(y, Ack);
    var last := |y.posts| - 1;
    assert Carries(y.added, y.posts[last]);
    assert z.queue.items == z.added[z.queue.base..];
    forall p | 0 <= p < z.queue.base ensures p in z.evicted || Shipped(z.posts, p) {
      if p >= y.queue.base { assert y.posts[last].from <= p < y.posts[last].batch.next; }
    }
  }

  lemma StepKeepsInv(y: Sys, step: Step)
    requires Inv(y) && Enabled(y, step)
    ensures Inv(Apply(y, step))
  {
    match step
    case Add(r) => AddKeepsInv(y, r);
    case Peek(b) => PeekKeepsInv(y, b);
    case Accept => AcceptKeepsInv(y);
    case Refuse =>
    case Ack => AckKeepsInv(y);
  }

  ghost predicate IsRun(states: seq<Sys>, steps: seq<Step>) {
    && |states| == |steps| + 1
    && states[0] == Sys(Queue([], 0, 0), Idle, [], {}, [])
    && forall i {:trigger steps[i]} :: 0 <= i < |steps| ==>
                                         Enabled(states[i], steps[i]) && states[i + 1] == Apply(states[i], steps[i])
  }

  lemma {:induction false} RunKeepsInv(states: seq<Sys>, steps: seq<Step>, n: nat)
    requires IsRun(states, steps) && n < |states|
    ensures Inv(states[n])
  {
    if n > 0 {
      RunKeepsInv(states, steps, n - 1);
      StepKeepsInv(states[n - 1], steps[n - 1]);
    }
  }

  // ------------------------------------------------------------------ what is conserved

  /** The positions, among all records added, of the records the posts carried. */
  function Positions(posts: seq<Shipment>): seq<nat> {
    if posts == [] then []
    else
      var s := posts[|posts| - 1];
      Positions(posts[..|posts| - 1]) +
      seq(if s.from <= s.batch.next then s.batch.next - s.from else 0, k requires k >= 0 => s.from + k)
  }

  /** Every line the server took, in the order it took them. */
  function Taken(posts: seq<Shipment>): seq<Line> {
    if posts == [] then [] else Taken(posts[..|posts| - 1]) + posts[|posts| - 1].batch.lines
  }

  lemma EarlierInOrder(added: seq<Record>, posts: seq<Shipment>, upTo: nat)
    requires InOrder(added, posts, upTo) && posts != []
    ensures InOrder(added, posts[..|posts| - 1], posts[|posts| - 1].from)
  {
  }

  lemma {:induction false} PositionsInOrder(added: seq<Record>, posts: seq<Shipment>, upTo: nat)
    requires InOrder(added, posts, upTo)
    ensures forall k :: 0 <= k < |Positions(posts)| ==> Positions(posts)[k] < upTo && Positions(posts)[k] < |added|
    ensures forall j, k :: 0 <= j < k < |Positions(posts)| ==> Positions(posts)[j] < Positions(posts)[k]
    decreases |posts|
  {
    if posts != [] {
      assert Carries(added, posts[|posts| - 1]);
      EarlierInOrder(added, posts, upTo);
      PositionsInOrder(added, posts[..|posts| - 1], posts[|posts| - 1].from);
    }
  }

  /** The records lie at these positions among all that were added. */
  ghost predicate LieAt(added: seq<Record>, records: seq<Record>, ps: seq<nat>) {
    |records| == |ps| && forall k :: 0 <= k < |ps| ==> ps[k] < |added| && records[k] == added[ps[k]]
  }

  lemma StretchLiesAt(added: seq<Record>, records: seq<Record>, ps: seq<nat>, from: nat, next: nat)
    requires LieAt(added, records, ps) && from <= next <= |added|
    ensures LieAt(added, records + added[from..next], ps + seq(next - from, k requires k >= 0 => from + k))
  {
  }

  lemma {:induction false} TakenAtPositions(added: seq<Record>, posts: seq<Shipment>, upTo: nat)
    requires InOrder(added, posts, upTo)
    ensures LieAt(added, RecordsOf(Taken(posts)), Positions(posts))
    ensures DropsOf(Taken(posts)) == Reported(posts)
    decreases |posts|
  {
    if posts != [] {
      var front, s := posts[..|posts| - 1], posts[|posts| - 1];
      assert Carries(added, s);
      EarlierInOrder(added, posts, upTo);
      TakenAtPositions(added, front, s.from);
      LinesAppend(Taken(front), s.batch.lines);
      BatchCarries(added[s.from..s.batch.next], s.batch.dropped);
      StretchLiesAt(added, RecordsOf(Taken(front)), Positions(front), s.from, s.batch.next);
    }
  }

  lemma {:induction false} ShippedIsTaken(posts: seq<Shipment>, p: nat)
    requires Shipped(posts, p)
    ensures p in Positions(posts)
    decreases |posts|
  {
    var front, s := posts[..|posts| - 1], posts[|posts| - 1];
    if s.from <= p < s.batch.next {
      assert Positions(posts)[|Positions(front)| + (p - s.from)] == p;
    } else {
      var i :| 0 <= i < |posts| && posts[i].from <= p < posts[i].batch.next;
      assert front[i] == posts[i];
      ShippedIsTaken(front, p);
    }
  }

  /**
   Log shipping conserves records. At any point of any run: a record added is queued in its place, or was evicted, or
   is in a batch the server took; the server has taken records in the order they were added, none twice; and the drops
   it was told of and the ones still to tell are exactly the evictions.
   */
  lemma RecordsAreConserved(states: seq<Sys>, steps: seq<Step>, n: nat)
    requires IsRun(states, steps) && n < |states|
    ensures var y := states[n]; var ps := Positions(y.posts);
                                && |y.queue.items| <= QUEUE_LIMIT
                                && (forall p :: 0 <= p < |y.added| ==>
                                                  || (p >= y.queue.base && p - y.queue.base < |y.queue.items| &&
                                                      y.queue.items[p - y.queue.base] == y.added[p])
                                                  || p in y.evicted
                                                  || p in ps)
                                && LieAt(y.added, RecordsOf(Taken(y.posts)), ps)
                                && (forall j, k :: 0 <= j < k < |ps| ==> ps[j] < ps[k])
                                && Told(y) <= y.queue.dropped
                                && DropsOf(Taken(y.posts)) + (y.queue.dropped - Told(y)) == |y.evicted|
  {
    RunKeepsInv(states, steps, n);
    var y := states[n];
    var upTo := if y.flight.Posting? then y.flight.from else if y.flight.Posted? then y.flight.batch.next
    else y.queue.base;
    PositionsInOrder(y.added, y.posts, upTo);
    TakenAtPositions(y.added, y.posts, upTo);
    forall p | 0 <= p < y.queue.base && p !in y.evicted ensures p in Positions(y.posts) { ShippedIsTaken(y.posts, p); }
  }

  // ------------------------------------------------------------------ one batch at a time

  /** The last of the first `n` steps that was not a record added. */
  function LastMove(steps: seq<Step>, n: nat): Option<Step>
    requires n <= |steps|
  {
    if n == 0 then None else if steps[n - 1].Add? then LastMove(steps, n - 1) else Some(steps[n - 1])
  }

  /**
   Over any run one batch is in flight at a time: it is posted after it is peeked and until it is taken or refused, it
   is acknowledged once taken, and a refused one is given up, to be peeked anew.
   */
  lemma {:induction false} OneBatchAtATime(states: seq<Sys>, steps: seq<Step>, n: nat)
    requires IsRun(states, steps) && n < |states|
    ensures var last, flight := LastMove(steps, n), states[n].flight;
            && (flight.Idle? <==> last.None? || last.value.Ack? || last.value.Refuse?)
            && (flight.Posting? <==> last.Some? && last.value.Peek?)
            && (flight.Posted? <==> last.Some? && last.value.Accept?)
            && (flight.Posting? ==> flight.batch == last.value.batch)
  {
    if n > 0 {
      OneBatchAtATime(states, steps, n - 1);
      assert Enabled(states[n - 1], steps[n - 1]) && states[n] == Apply(states[n - 1], steps[n - 1]);
    }
  }
}
