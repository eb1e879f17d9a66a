/**
The driver's timeline of events: a circular buffer that keeps a reserve for important events, drained in batches.
`Queue` is the plain queue that it refines.
*/
module TimelineRing {

  const DEFAULT_CAPACITY := 4096
  const MIN_CAPACITY := 128
  const MAX_CAPACITY := 16384

  datatype Kind = ProcessCreate | ProcessExit | ImageLoad | ThreadCreate | ThreadExit

  datatype Record = Record(kind: Kind, payload: nat, sequence: nat)

  datatype Queue = Queue(capacity: nat, events: seq<Record>, dropped: nat, next: nat)

  function Distance(a: nat, b: nat): nat {
    if a < b then b - a else a - b
  }

  /** The allowed capacity nearest to the one asked for; zero asks for the default. */
  function NormalizeCapacity(capacity: nat): (r: nat)
    ensures MIN_CAPACITY <= r <= MAX_CAPACITY
    ensures capacity == 0 ==> r == 4096
    ensures capacity > 0 ==> forall x | 128 <= x <= 16384 :: Distance(r, capacity) <= Distance(x, capacity)
  {
    var value := if capacity == 0 then DEFAULT_CAPACITY else capacity;
    if value < MIN_CAPACITY then MIN_CAPACITY else if value > MAX_CAPACITY then MAX_CAPACITY else value
  }

  predicate ThreadNoise(e: Record) {
    e.kind == ThreadCreate || e.kind == ThreadExit
  }

  /** Three quarters full or more: thread events are not taken any more. */
  predicate UnderPressure(q: Queue) {
    |q.events| * 4 >= q.capacity * 3
  }

  predicate Takes(q: Queue, e: Record) {
    q.capacity > 0 && !(ThreadNoise(e) && UnderPressure(q))
  }

  /** Taking this event pushes the oldest one out. */
  predicate Overwrites(q: Queue, e: Record) {
    Takes(q, e) && |q.events| >= q.capacity
  }

  function Numbered(q: Queue, e: Record): Record {
    e.(sequence := q.next)
  }

  function Push(q: Queue, e: Record): Queue {
    if q.capacity == 0 then q
    else if !Takes(q, e) then q.(dropped := q.dropped + 1)
    else if Overwrites(q, e) then
      q.(events := (if q.events == [] then [] else q.events[1..]) + [Numbered(q, e)], dropped := q.dropped + 1,
         next := q.next + 1)
    else q.(events := q.events + [Numbered(q, e)], next := q.next + 1)
  }

  function Batch(q: Queue, maxEvents: nat): nat {
    if |q.events| < maxEvents then |q.events| else maxEvents
  }

  function Drain(q: Queue, maxEvents: nat): Queue {
    q.(events := q.events[Batch(q, maxEvents)..])
  }

  function Clear(q: Queue): Queue {
    q.(events := [], dropped := 0, next := 1)
  }

  function Ensured(q: Queue, capacity: nat, granted: bool): Queue {
    var normalized := NormalizeCapacity(capacity);
    if q.capacity != normalized && !granted then q else Clear(q.(capacity := normalized))
  }

  const EMPTY := Queue(0, [], 0, 1)

  /** Where the event that is `i` places after the oldest one is stored. */
  function Slot(head: nat, count: nat, capacity: nat, i: nat): (p: nat)
    requires head < capacity && i < count <= capacity
    ensures p < capacity
  {
    var p := head + capacity - count + i;
    if p >= capacity then p - capacity else p
  }

  lemma Wrapped(x: nat, n: nat)
    requires n > 0 && x < 2 * n
    ensures x % n == (if x < n then x else x - n)
  {
    var q := x / n;
    assert x == q * n + x % n;
    assert q >= 2 ==> q * n >= 2 * n;
    assert q <= 0 ==> q * n <= 0;
  }

  /** The slot of the oldest event. */
  function Oldest(head: nat, count: nat, capacity: nat): (p: nat)
    requires head < capacity && count <= capacity
    ensures p < capacity
  {
    (head + capacity - count) % capacity
  }

  lemma SlotFromOldest(head: nat, count: nat, capacity: nat, i: nat)
    requires head < capacity && i < count <= capacity
    ensures var p := Oldest(head, count, capacity) + i;
            Slot(head, count, capacity, i) == (if p >= capacity then p - capacity else p)
  {
    var x := head + capacity - count;
    Wrapped(x, capacity);
  }

  lemma SlotShifted(head: nat, count: nat, capacity: nat, n: nat, i: nat)
    requires head < capacity && n + i < count <= capacity
    ensures Slot(head, count - n, capacity, i) == Slot(head, count, capacity, n + i)
  {
  }

  /** The slots hold these records, oldest first. */
  ghost predicate Holds(slots: seq<Record>, events: seq<Record>, head: nat, count: nat, capacity: nat)
    requires |slots| == capacity && head < capacity && count == |events| <= capacity
  {
    forall i | 0 <= i < count :: slots[Slot(head, count, capacity, i)] == events[i]
  }

  /** Without its oldest events the buffer still ends at the head. */
  lemma Dropped(slots: seq<Record>, events: seq<Record>, head: nat, count: nat, capacity: nat, n: nat)
    requires |slots| == capacity && head < capacity && n <= count == |events| <= capacity
    requires Holds(slots, events, head, count, capacity)
    ensures Holds(slots, events[n..], head, count - n, capacity)
  {
    hide Slot;
    forall i | 0 <= i < count - n ensures slots[Slot(head, count - n, capacity, i)] == events[n..][i] {
      SlotShifted(head, count, capacity, n, i);
    }
  }

  /** Writing at the head and moving it on shifts the window by one, and widens it unless it is full. */
  lemma Written(before: seq<Record>, slots: seq<Record>, events: seq<Record>, head: nat, count: nat, capacity: nat,
                e: Record)
    requires |before| == capacity && head < capacity && count == |events| <= capacity
    requires Holds(before, events, head, count, capacity) && slots == before[head := e]
    ensures var next := if head + 1 >= capacity then 0 else head + 1;
            var full := count == capacity;
            Holds(slots, events[if full then 1 else 0..] + [e], next, if full then count else count + 1, capacity)
  {
    var next := if head + 1 >= capacity then 0 else head + 1;
    var skip := if count == capacity then 1 else 0;
    var after := events[skip..] + [e];
    var n := count + 1 - skip;
    forall i | 0 <= i < n ensures slots[Slot(next, n, capacity, i)] == after[i] {
      if i < n - 1 {
        assert Slot(next, n, capacity, i) == Slot(head, count, capacity, i + skip);
      }
    }
  }

  class Timeline {
    var ring: array?<Record>
    var capacity: nat
    var head: nat
    var count: nat
    var dropped: nat
    var nextSequence: nat
    // The events in the buffer, oldest first.
    ghost var contents: seq<Record>

    ghost predicate Valid()
      reads this, ring
    {
      && (ring == null ==> capacity == 0 && head == 0 && count == 0)
      && (ring != null ==> ring.Length == capacity && MIN_CAPACITY <= capacity <= MAX_CAPACITY && head < capacity)
      && count == |contents| <= capacity
      && (ring != null ==> Holds(ring[..], contents, head, count, capacity))
    }

    ghost function View(): Queue
      reads this
    {
      Queue(capacity, contents, dropped, nextSequence)
    }

    constructor ()
      ensures Valid() && View() == EMPTY && ring == null
    {
      ring, capacity, head, count, dropped, nextSequence := null, 0, 0, 0, 0, 1;
      contents := [];
    }

    method PushEvent(e: Record)
      requires Valid()
      modifies this, ring
      ensures Valid() && View() == Push(old(View()), e) && ring == old(ring) && capacity == old(capacity)
      ensures var noise := e.kind == ThreadCreate || e.kind == ThreadExit;
              if capacity == 0 then View() == old(View())
              else if noise && old(count) * 4 >= capacity * 3 then
                contents == old(contents) && dropped == old(dropped) + 1 && nextSequence == old(nextSequence)
              else
                && contents == old(contents)[if old(count) == capacity then 1 else 0..]
                               + [Record(e.kind, e.payload, old(nextSequence))]
                && dropped == (if old(count) == capacity then old(dropped) + 1 else old(dropped))
                && nextSequence == old(nextSequence) + 1
    {
      if ring != null && capacity != 0 {
        var threadNoise := e.kind == ThreadCreate || e.kind == ThreadExit;
        if threadNoise && count * 4 >= capacity * 3 {
          dropped := dropped + 1;
        } else {
          Store(e);
        }
      }
    }

    /** The write at the head, over the oldest event if the buffer is full. */
    method Store(e: Record)
      requires Valid() && ring != null
      modifies this, ring
      ensures Valid() && ring == old(ring) && capacity == old(capacity) && nextSequence == old(nextSequence) + 1
      ensures var full := old(count) == capacity;
              && dropped == (if full then old(dropped) + 1 else old(dropped))
              && contents == old(contents)[if full then 1 else 0..] + [e.(sequence := old(nextSequence))]
    {
      hide Slot, Holds;
      var numbered := e.(sequence := nextSequence);
      ghost var before := ring[..];
      ring[head] := numbered;
      ghost var at := head;
      nextSequence := nextSequence + 1;
      head := head + 1;
      if head >= capacity {
        head := 0;
      }
      Written(before, ring[..], contents, at, count, capacity, numbered);
      contents := contents[if count == capacity then 1 else 0..] + [numbered];
      if count < capacity {
        count := count + 1;
      } else {
        dropped := dropped + 1;
      }
    }

    method ClearLocked()
      requires Valid()
      modifies this
      ensures Valid() && View() == Clear(old(View())) && ring == old(ring)
      ensures contents == [] && dropped == 0 && nextSequence == 1 && capacity == old(capacity)
    {
      head, count, dropped, nextSequence := 0, 0, 0, 1;
      contents := [];
    }

    /** START: an existing ring of the right size is only cleared; a failed allocation changes nothing. */
    method EnsureRing(requested: nat, granted: bool) returns (ready: bool)
      requires Valid()
      modifies this
      ensures Valid() && View() == Ensured(old(View()), requested, granted)
      ensures ready <==> granted || old(capacity) == NormalizeCapacity(requested)
      ensures ready ==> ring != null && capacity == NormalizeCapacity(requested)
      ensures ready ==> contents == [] && dropped == 0 && nextSequence == 1
      ensures !ready ==> View() == old(View())
      ensures ring == old(ring) || fresh(ring)
    {
      var normalized := NormalizeCapacity(requested);
      if ring != null && capacity == normalized {
        ClearLocked();
        return true;
      }
      if !granted {
        return false;
      }
      ring := new Record[normalized](_ => Record(ProcessCreate, 0, 0));
      capacity := normalized;
      head, count, dropped, nextSequence := 0, 0, 0, 1;
      contents := [];
      ready := true;
    }

    /** The copy loop of a drain, oldest event first. */
    method Copy(response: array<Record>, toCopy: nat)
      requires Valid() && ring != null && response != ring && toCopy <= count && toCopy <= response.Length
      modifies response
      ensures response[..toCopy] == contents[..toCopy] && response[toCopy..] == old(response[toCopy..])
    {
      hide Slot, Oldest;
      var oldest := Oldest(head, count, capacity);
      var index := 0;
      while index < toCopy
        invariant 0 <= index <= toCopy
        invariant forall i | 0 <= i < index :: response[i] == contents[i]
        invariant forall i | index <= i < response.Length :: response[i] == old(response[i])
      {
        var ringIndex := oldest + index;
        if ringIndex >= capacity {
          ringIndex := ringIndex - capacity;
        }
        SlotFromOldest(head, count, capacity, index);
        response[index] := ring[ringIndex];
        index := index + 1;
      }
    }

    /** The oldest events leave the buffer; the head stays. */
    method Discard(n: nat)
      requires Valid() && ring != null && n <= count
      modifies this`count, this`contents
      ensures Valid() && contents == old(contents)[n..]
    {
      hide Holds;
      Dropped(ring[..], contents, head, count, capacity, n);
      count := count - n;
      contents := contents[n..];
    }

    /** A drain gives at most as many events as asked for and as the caller's buffer holds. */
    method DrainTo(response: array<Record>, requested: nat) returns (toCopy: nat)
      requires Valid() && response != ring
      modifies this`count, this`contents, response
      ensures var maxEvents := if requested == 0 || requested > response.Length then response.Length else requested;
              && toCopy == Batch(old(View()), maxEvents) && View() == Drain(old(View()), maxEvents)
              && toCopy <= maxEvents && (toCopy == |old(contents)| || toCopy == maxEvents)
      ensures toCopy <= |old(contents)| && contents == old(contents)[toCopy..]
      ensures capacity == old(capacity) && dropped == old(dropped) && nextSequence == old(nextSequence)
      ensures Valid() && response[..toCopy] == old(contents)[..toCopy] && response[toCopy..] == old(response[toCopy..])
    {
      var maxEvents := if requested == 0 || requested > response.Length then response.Length else requested;
      toCopy := if count < maxEvents then count else maxEvents;
      if ring != null && capacity != 0 {
        Copy(response, toCopy);
        Discard(toCopy);
      }
    }
  }

  // ---------------------------------------------------------------------------------------------
  // Runs
  // ---------------------------------------------------------------------------------------------

  datatype Op = OpPush(event: Record) | OpDrain(maxEvents: nat) | OpClear | OpEnsure(capacity: nat, granted: bool)

  function Apply(q: Queue, op: Op): Queue {
    match op
    case OpPush(e) => Push(q, e)
    case OpDrain(n) => Drain(q, n)
    case OpClear => Clear(q)
    case OpEnsure(capacity, granted) => Ensured(q, capacity, granted)
  }

  /** What a run has done since the buffer was last emptied by a clear or a new ring. */
  datatype Account = Account(queue: Queue, taken: seq<Record>, drained: seq<Record>, offered: nat, lost: nat)

  predicate Restarts(q: Queue, op: Op) {
    op.OpClear? || (op.OpEnsure? && (op.granted || q.capacity == NormalizeCapacity(op.capacity)))
  }

  function Next(a: Account, op: Op): Account {
    var q := Apply(a.queue, op);
    if Restarts(a.queue, op) then Account(q, [], [], 0, 0)
    else
      match op
      case OpPush(e) =>
        a.(queue := q,
           taken := if Takes(a.queue, e) then a.taken + [Numbered(a.queue, e)] else a.taken,
           offered := if a.queue.capacity > 0 then a.offered + 1 else a.offered,
           lost := if Overwrites(a.queue, e) then a.lost + 1 else a.lost)
      case OpDrain(n) => a.(queue := q, drained := a.drained + a.queue.events[..Batch(a.queue, n)])
      case _ => a.(queue := q)
  }

  function Perform(ops: seq<Op>): Account {
    if ops == [] then Account(EMPTY, [], [], 0, 0) else Next(Perform(ops[..|ops| - 1]), ops[|ops| - 1])
  }

  ghost predicate Consistent(a: Account) {
    && |a.queue.events| <= a.queue.capacity
    && (a.queue.capacity == 0 || MIN_CAPACITY <= a.queue.capacity <= MAX_CAPACITY)
    && a.queue.next == |a.taken| + 1
    && (forall i | 0 <= i < |a.taken| :: a.taken[i].sequence == i + 1)
    && |a.queue.events| <= |a.taken| && a.queue.events == a.taken[|a.taken| - |a.queue.events|..]
    && |a.drained| + a.lost + |a.queue.events| == |a.taken|
    && a.offered == |a.drained| + |a.queue.events| + a.queue.dropped
    && a.lost <= a.queue.dropped
    && (forall i, j | 0 <= i < j < |a.drained| :: a.drained[i].sequence < a.drained[j].sequence)
    && (forall i | 0 <= i < |a.drained| :: Drained(a, a.drained[i]))
  }

  /** The record was taken, and everything older than it has left the buffer. */
  predicate Drained(a: Account, x: Record) {
    1 <= x.sequence <= |a.taken| - |a.queue.events| && a.taken[x.sequence - 1] == x
  }

  lemma PushConsistent(a: Account, e: Record)
    requires Consistent(a)
    ensures Consistent(Next(a, OpPush(e)))
  {
    if Takes(a.queue, e) {
      TakenConsistent(a, e);
    } else {
      var b := Next(a, OpPush(e));
      forall i | 0 <= i < |b.drained| ensures Drained(b, b.drained[i]) {
        assert Drained(a, a.drained[i]);
      }
    }
  }

  lemma TakenConsistent(a: Account, e: Record)
    requires Consistent(a) && Takes(a.queue, e)
    ensures Consistent(Next(a, OpPush(e)))
  {
    var b := Next(a, OpPush(e));
    assert b.taken == a.taken + [Numbered(a.queue, e)];
    TakenWindow(a, e);
    hide Next;
    assert |b.taken| - |b.queue.events| >= |a.taken| - |a.queue.events|;
    forall i | 0 <= i < |b.drained| ensures Drained(b, b.drained[i]) {
      assert Drained(a, a.drained[i]);
    }
  }

  lemma TakenWindow(a: Account, e: Record)
    requires Consistent(a) && Takes(a.queue, e)
    ensures var b := Next(a, OpPush(e)); var q := b.queue;
            && b.taken == a.taken + [Numbered(a.queue, e)] && b.drained == a.drained
            && q.capacity == a.queue.capacity && q.next == a.queue.next + 1 && |q.events| <= q.capacity
            && |q.events| <= |b.taken| && q.events == b.taken[|b.taken| - |q.events|..]
            && b.offered == a.offered + 1 && |q.events| >= |a.queue.events|
            && b.lost - a.lost == q.dropped - a.queue.dropped == |a.queue.events| + 1 - |q.events|
  {
    var b := Next(a, OpPush(e));
    assert b.taken[|b.taken| - |b.queue.events|..] == a.taken[|b.taken| - |b.queue.events|..] + [Numbered(a.queue, e)];
  }

  /** What a drain appends to the drained records, in terms of the records taken. */
  lemma DrainAppends(a: Account, n: nat)
    requires Consistent(a)
    ensures var b, k, first := Next(a, OpDrain(n)), Batch(a.queue, n), |a.taken| - |a.queue.events|;
            && first >= 0 && first + k <= |a.taken|
            && b.drained == a.drained + a.taken[first..first + k]
            && b.taken == a.taken && b.lost == a.lost && b.offered == a.offered
            && b.queue == Drain(a.queue, n) && b.queue.events == a.taken[first + k..]
  {
    var k, first := Batch(a.queue, n), |a.taken| - |a.queue.events|;
    assert a.queue.events[..k] == a.taken[first..first + k];
    assert a.queue.events[k..] == a.taken[first + k..];
  }

  lemma DrainOrdered(a: Account, first: nat, k: nat)
    requires Consistent(a) && first == |a.taken| - |a.queue.events| && first + k <= |a.taken|
    ensures var d := a.drained + a.taken[first..first + k];
            forall i, j | 0 <= i < j < |d| :: d[i].sequence < d[j].sequence
  {
    var d := a.drained + a.taken[first..first + k];
    assert forall i | 0 <= i < |a.drained| :: d[i] == a.drained[i] && Drained(a, a.drained[i]);
    assert forall j | |a.drained| <= j < |d| :: d[j] == a.taken[first + j - |a.drained|];
  }

  lemma DrainConsistent(a: Account, n: nat)
    requires Consistent(a)
    ensures Consistent(Next(a, OpDrain(n)))
  {
    var b, k, first := Next(a, OpDrain(n)), Batch(a.queue, n), |a.taken| - |a.queue.events|;
    DrainAppends(a, n);
    DrainOrdered(a, first, k);
    hide Next, Batch;
    forall i | 0 <= i < |b.drained| ensures Drained(b, b.drained[i]) {
      if i < |a.drained| {
        assert Drained(a, a.drained[i]);
      } else {
        assert b.drained[i] == a.taken[first + i - |a.drained|];
      }
    }
  }

  lemma {:induction false} PerformConsistent(ops: seq<Op>)
    ensures Consistent(Perform(ops))
  {
    if ops == [] {
    } else {
      var a, op := Perform(ops[..|ops| - 1]), ops[|ops| - 1];
      PerformConsistent(ops[..|ops| - 1]);
      match op
      case OpPush(e) => PushConsistent(a, e);
      case OpDrain(n) => DrainConsistent(a, n);
      case _ =>
    }
  }

  /** The buffer holds exactly the newest events taken, numbered without a gap up to the next number. */
  lemma {:induction false} WindowIsNewest(ops: seq<Op>)
    ensures var a := Perform(ops); var q := a.queue;
            && |q.events| <= q.capacity && |q.events| < q.next
            && (forall i | 0 <= i < |q.events| :: q.events[i].sequence == q.next - |q.events| + i)
            && |q.events| <= |a.taken| && q.events == a.taken[|a.taken| - |q.events|..]
  {
    PerformConsistent(ops);
  }

  /** Nothing is lost silently: every event offered was drained, is in the buffer, or is counted as dropped. */
  lemma {:induction false} OfferedIsAccountedFor(ops: seq<Op>)
    ensures var a := Perform(ops); a.offered == |a.drained| + |a.queue.events| + a.queue.dropped
  {
    PerformConsistent(ops);
  }

  /** Drains deliver what was taken, in order and without repetition. */
  lemma {:induction false} DrainsAreInOrder(ops: seq<Op>, i: nat, j: nat)
    requires i < j < |Perform(ops).drained|
    ensures var a := Perform(ops);
            && a.drained[i].sequence < a.drained[j].sequence
            && 1 <= a.drained[j].sequence <= |a.taken| && a.taken[a.drained[j].sequence - 1] == a.drained[j]
  {
    PerformConsistent(ops);
    assert Drained(Perform(ops), Perform(ops).drained[j]);
  }

  /** The events that the buffer accepted since it was last emptied, in the order of the pushes. */
  function AcceptedPushes(ops: seq<Op>): seq<Record> {
    if ops == [] then []
    else
      var earlier, op := ops[..|ops| - 1], ops[|ops| - 1];
      var q := Perform(earlier).queue;
      if Restarts(q, op) then []
      else if op.OpPush? && Perform(ops).queue.next != q.next then AcceptedPushes(earlier) + [op.event]
      else AcceptedPushes(earlier)
  }

  /** What was taken is what was offered: the k-th record taken is the k-th accepted push, numbered k + 1. */
  lemma {:induction false} TakenAsOffered(ops: seq<Op>)
    ensures var taken, offered := Perform(ops).taken, AcceptedPushes(ops);
            && |taken| == |offered|
            && forall k | 0 <= k < |taken| ::
                 && taken[k].kind == offered[k].kind && taken[k].payload == offered[k].payload
                 && taken[k].sequence == k + 1
  {
    PerformConsistent(ops);
    if ops == [] {
    } else {
      TakenAsOffered(ops[..|ops| - 1]);
    }
  }

  /** The same drain, again and again. */
  function Drains(n: nat, times: nat): seq<Op> {
    seq(times, _ => OpDrain(n))
  }

  /** The buffer has lost its `total` oldest events and nothing else. */
  predicate Left(q: Queue, r: Queue, total: nat) {
    && |r.events| == (if |q.events| < total then 0 else |q.events| - total)
    && r.events == q.events[|q.events| - |r.events|..]
    && r.capacity == q.capacity && r.dropped == q.dropped && r.next == q.next
  }

  lemma DrainLeaves(q: Queue, r: Queue, total: nat, n: nat)
    requires Left(q, r, total)
    ensures Left(q, Drain(r, n), total + n)
  {
  }

  lemma OneMoreDrain(q: Queue, n: nat, times: nat)
    requires times > 0
    ensures Continue(q, Drains(n, times)) == Drain(Continue(q, Drains(n, times - 1)), n)
  {
    hide Drain;
    assert Drains(n, times)[..times - 1] == Drains(n, times - 1);
  }

  lemma {:induction false} DrainsLeave(q: Queue, n: nat, times: nat, total: nat)
    requires total == n * times
    ensures Left(q, Continue(q, Drains(n, times)), total)
  {
    hide Drain, Drains;
    if times == 0 {
      assert Drains(n, 0) == [] by {
        NoDrains(n);
      }
    } else {
      hide Left, Continue;
      var less := n * (times - 1);
      assert total == less + n;
      DrainsLeave(q, n, times - 1, less);
      OneMoreDrain(q, n, times);
      DrainLeaves(q, Continue(q, Drains(n, times - 1)), less, n);
    }
  }

  lemma NoDrains(n: nat)
    ensures Drains(n, 0) == []
  {
  }

  lemma {:induction false} PerformContinues(ops: seq<Op>, more: seq<Op>)
    ensures Perform(ops + more).queue == Continue(Perform(ops).queue, more)
  {
    if more == [] {
      assert ops + more == ops;
    } else {
      PerformContinues(ops, more[..|more| - 1]);
      assert (ops + more)[..|ops + more| - 1] == ops + more[..|more| - 1];
    }
  }

  /** After any run, drains of n take the oldest events n at a time, lose none, and enough of them empty the buffer. */
  lemma DrainsEmpty(ops: seq<Op>, n: nat, times: nat)
    ensures var q, r := Perform(ops).queue, Perform(ops + Drains(n, times)).queue;
            && |r.events| == (if |q.events| < n * times then 0 else |q.events| - n * times)
            && r.events == q.events[|q.events| - |r.events|..] && r.dropped == q.dropped && r.next == q.next
  {
    hide Perform, Continue, Drains;
    PerformContinues(ops, Drains(n, times));
    DrainsLeave(Perform(ops).queue, n, times, n * times);
  }

  // ---------------------------------------------------------------------------------------------
  // The reserve
  // ---------------------------------------------------------------------------------------------

  /** A thread event waits its turn or is dropped, but never displaces anything. */
  lemma {:induction false} ThreadNeverOverwrites(ops: seq<Op>, e: Record)
    requires ThreadNoise(e)
    ensures var q := Perform(ops).queue;
            !Overwrites(q, e) && Push(q, e).events == (if Takes(q, e) then q.events + [Numbered(q, e)] else q.events)
  {
    PerformConsistent(ops);
  }

  function Continue(q: Queue, ops: seq<Op>): Queue {
    if ops == [] then q else Apply(Continue(q, ops[..|ops| - 1]), ops[|ops| - 1])
  }

  function Important(ops: seq<Op>): nat {
    if ops == [] then 0
    else Important(ops[..|ops| - 1]) + (if ops[|ops| - 1].OpPush? && !ThreadNoise(ops[|ops| - 1].event) then 1 else 0)
  }

  predicate PushesAndDrains(ops: seq<Op>) {
    forall k | 0 <= k < |ops| :: ops[k].OpPush? || ops[k].OpDrain?
  }

  /** The largest count that thread events alone can bring about. */
  function Threshold(capacity: nat): nat {
    (capacity * 3 + 3) / 4
  }

  lemma {:induction false} CountBounded(q: Queue, ops: seq<Op>)
    requires |q.events| <= Threshold(q.capacity) && PushesAndDrains(ops)
    ensures var r := Continue(q, ops); r.capacity == q.capacity && |r.events| <= Threshold(q.capacity) + Important(ops)
  {
    if ops == [] {
    } else {
      assert PushesAndDrains(ops[..|ops| - 1]);
      CountBounded(q, ops[..|ops| - 1]);
    }
  }

  lemma {:induction false} ImportantGrows(ops: seq<Op>, k: nat)
    requires k < |ops| && ops[k].OpPush? && !ThreadNoise(ops[k].event)
    ensures Important(ops[..k]) + 1 <= Important(ops)
  {
    if k == |ops| - 1 {
    } else {
      ImportantGrows(ops[..|ops| - 1], k);
      assert ops[..|ops| - 1][..k] == ops[..k];
    }
  }

  /**
  The reserve: from at most three quarters full, rounded up, no push overwrites anything while at most a quarter of
  the capacity, rounded down, is pushed of important events, however many thread events come with them.
  */
  lemma ReserveHolds(q: Queue, ops: seq<Op>, k: nat)
    requires |q.events| <= Threshold(q.capacity) && PushesAndDrains(ops) && Important(ops) <= q.capacity / 4
    requires k < |ops| && ops[k].OpPush?
    ensures !Overwrites(Continue(q, ops[..k]), ops[k].event)
  {
    assert PushesAndDrains(ops[..k]);
    CountBounded(q, ops[..k]);
    if !ThreadNoise(ops[k].event) {
      ImportantGrows(ops, k);
    }
  }

  function Images(n: nat): seq<Op> {
    seq(n, _ => OpPush(Record(ImageLoad, 0, 0)))
  }

  lemma {:induction false} ImagesFill(q: Queue, n: nat)
    requires |q.events| + n <= q.capacity
    ensures Important(Images(n)) == n
    ensures Continue(q, Images(n)).capacity == q.capacity && |Continue(q, Images(n)).events| == |q.events| + n
  {
    if n == 0 {
    } else {
      ImagesFill(q, n - 1);
      assert Images(n)[..n - 1] == Images(n - 1);
    }
  }

  /** The reserve is exactly that large: one important event more than a quarter overwrites, for every capacity. */
  lemma ReserveIsTight(q: Queue)
    requires q.capacity > 0 && |q.events| == Threshold(q.capacity)
    ensures Important(Images(q.capacity / 4)) == q.capacity / 4
    ensures Overwrites(Continue(q, Images(q.capacity / 4)), Record(ImageLoad, 0, 0))
  {
    ImagesFill(q, q.capacity / 4);
  }
}
