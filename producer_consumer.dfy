/** The bounded producer/consumer buffer of Multithreading/Semaphores/ProducerCosumer.java: a FIFO
    queue behind three semaphores, `empty` (free slots), `full` (filled slots) and `mutex`.

    A complete `produce` or `consume` is one atomic step. When its first acquire would wait, the call
    reports so and nothing changes. */
module ProducerConsumer {

  datatype Option<T> = None | Some(value: T)

  /* ---------------------------------------------------------------------------------------------
     The order of the semaphore operations inside one call
     --------------------------------------------------------------------------------------------- */

  /** One action of `produce` or `consume`. */
  datatype Sync =
    | AcquireEmpty | AcquireFull | AcquireMutex
    | ReleaseMutex | ReleaseEmpty | ReleaseFull
    | Add(item: int) | Poll(item: int)

  function ProduceSteps(item: int): seq<Sync>
  {
    [AcquireEmpty, AcquireMutex, Add(item), ReleaseMutex, ReleaseFull]
  }

  function ConsumeSteps(item: int): seq<Sync>
  {
    [AcquireFull, AcquireMutex, Poll(item), ReleaseMutex, ReleaseEmpty]
  }

  /** Whether the mutex is held after action `a`, given whether it was held before; None when `a`
      breaks the rule that the queue is touched only under the mutex and that no capacity semaphore
      (`empty`, `full`) is acquired or released while the mutex is held. */
  function Discipline(held: bool, a: Sync): Option<bool>
  {
    match a
    case AcquireMutex => if held then None else Some(true)
    case ReleaseMutex => if held then Some(false) else None
    case Add(_) => if held then Some(true) else None
    case Poll(_) => if held then Some(true) else None
    case _ => if held then None else Some(false)
  }

  function Replay(held: bool, log: seq<Sync>): Option<bool>
    decreases |log|
  {
    if log == [] then Some(held)
    else match Discipline(held, log[0])
      case None => None
      case Some(next) => Replay(next, log[1..])
  }

  lemma {:induction false} ReplayAppend(held: bool, a: seq<Sync>, b: seq<Sync>)
    ensures Replay(held, a + b) == match Replay(held, a) case None => None case Some(h) => Replay(h, b)
    decreases |a|
  {
    if a == [] {
      assert a + b == b;
    } else {
      assert (a + b)[0] == a[0] && (a + b)[1..] == a[1..] + b;
      match Discipline(held, a[0])
      case None =>
      case Some(next) => ReplayAppend(next, a[1..], b);
    }
  }

  /** Each complete call takes the mutex after its capacity semaphore and gives it back before it
      signals the other side, so a log of complete calls never holds the mutex across a wait on
      `empty` or `full`. */
  lemma {:induction false} ProtocolsKeepDiscipline(log: seq<Sync>, item: int)
    requires Replay(false, log) == Some(false)
    ensures Replay(false, log + ProduceSteps(item)) == Some(false)
    ensures Replay(false, log + ConsumeSteps(item)) == Some(false)
  {
    ReplayAppend(false, log, ProduceSteps(item));
    ReplayAppend(false, log, ConsumeSteps(item));
    var p := ProduceSteps(item);
    assert Replay(true, p[4..]) == None && Replay(false, p[4..]) == Some(false);
    assert Replay(true, p[3..]) == Some(false);
    assert Replay(true, p[2..]) == Some(false);
    assert Replay(false, p[1..]) == Some(false);
    var c := ConsumeSteps(item);
    assert Replay(false, c[4..]) == Some(false);
    assert Replay(true, c[3..]) == Some(false);
    assert Replay(true, c[2..]) == Some(false);
    assert Replay(false, c[1..]) == Some(false);
  }

  /** Taking the mutex before the free-slot semaphore, the order the buffer avoids, breaks the rule. */
  lemma SwappedOrderBreaksDiscipline(item: int)
    ensures Replay(false, [AcquireMutex, AcquireEmpty, Add(item), ReleaseMutex, ReleaseFull]) == None
  {
  }

  /* ---------------------------------------------------------------------------------------------
     The buffer's state between calls
     --------------------------------------------------------------------------------------------- */

  datatype BufferState = BufferState(queue: seq<int>, maxSize: int, empty: int, full: int, mutex: int)

  /** The counters track the queue: free slots plus queued items make the size, `full` counts the
      items, the mutex is free, and free slots go negative only for a negative size, whose buffer
      stays empty. */
  predicate Inv(s: BufferState)
  {
    && |s.queue| + s.empty == s.maxSize
    && s.full == |s.queue|
    && s.mutex == 1
    && (0 <= s.empty || s.queue == [])
  }

  function Init(size: int): (s: BufferState)
    ensures Inv(s) && s.queue == [] && s.empty == size && s.full == 0
  {
    BufferState([], size, size, 0, 1)
  }

  /** `produce(item)`: waits while no slot is free, otherwise appends at the tail. The mutex goes
      from 1 to 0 and back to 1 within the call. */
  function ProduceStep(s: BufferState, item: int): (r: BufferState)
    requires Inv(s)
    ensures Inv(r) && r.maxSize == s.maxSize
    ensures r.queue == if 0 < s.empty then s.queue + [item] else s.queue
    // the queue never grows past the size
    ensures 0 <= s.maxSize ==> |r.queue| <= s.maxSize
  {
    if s.empty <= 0 then s
    else s.(queue := s.queue + [item], empty := s.empty - 1, full := s.full + 1)
  }

  /** `consume()`: waits while no slot is filled, otherwise removes and returns the head. */
  function ConsumeStep(s: BufferState): (r: (BufferState, Option<int>))
    requires Inv(s)
    ensures Inv(r.0) && r.0.maxSize == s.maxSize
    ensures r.1.Some? <==> 0 < s.full
    // the queue is never polled while empty, and only its head leaves
    ensures r.1.Some? ==> s.queue != [] && r.1.value == s.queue[0] && r.0.queue == s.queue[1..]
    ensures r.1.None? ==> r.0 == s
  {
    if s.full <= 0 then (s, None)
    else (s.(queue := s.queue[1..], empty := s.empty + 1, full := s.full - 1), Some(s.queue[0]))
  }

  lemma ProduceThenConsumeRestores(size: int, item: int)
    requires 0 < size
    ensures ConsumeStep(ProduceStep(Init(size), item)) == (Init(size), Some(item))
  {
  }

  datatype Call = Put(item: int) | Take

  /** Runs the calls in order; the result is the final state, the items the producers managed to add,
      and the items the consumers received. */
  function RunCalls(s: BufferState, calls: seq<Call>): (r: (BufferState, seq<int>, seq<int>))
    requires Inv(s)
    ensures Inv(r.0) && r.0.maxSize == s.maxSize
    decreases |calls|
  {
    if calls == [] then (s, [], [])
    else match calls[0]
      case Put(x) =>
        var next := ProduceStep(s, x);
        var (t, added, taken) := RunCalls(next, calls[1..]);
        (t, if 0 < s.empty then [x] + added else added, taken)
      case Take =>
        var (next, out) := ConsumeStep(s);
        var (t, added, taken) := RunCalls(next, calls[1..]);
        (t, added, if out.Some? then [out.value] + taken else taken)
  }

  /** FIFO: what the consumers received, followed by what is still queued, is what was queued at the
      start followed by what the producers added, in the same order. */
  lemma {:induction false} RunIsFifo(s: BufferState, calls: seq<Call>)
    requires Inv(s)
    ensures var (t, added, taken) := RunCalls(s, calls); taken + t.queue == s.queue + added
    decreases |calls|
  {
    if calls != [] {
      match calls[0]
      case Put(x) =>
        RunIsFifo(ProduceStep(s, x), calls[1..]);
        var (t, added, taken) := RunCalls(ProduceStep(s, x), calls[1..]);
        if 0 < s.empty {
          assert s.queue + [x] + added == s.queue + ([x] + added);
        }
      case Take =>
        var (next, out) := ConsumeStep(s);
        RunIsFifo(next, calls[1..]);
        var (t, added, taken) := RunCalls(next, calls[1..]);
        if out.Some? {
          assert s.queue == [out.value] + next.queue;
          assert [out.value] + taken + t.queue == [out.value] + (taken + t.queue);
        }
    }
  }

  /* ---------------------------------------------------------------------------------------------
     The buffer object
     --------------------------------------------------------------------------------------------- */

  class Buffer {
    var queue: seq<int>
    const maxSize: int
    var empty: int
    var full: int
    var mutex: int
    /** The semaphore actions of all completed calls, in order. */
    ghost var log: seq<Sync>

    ghost function State(): BufferState
      reads this
    {
      BufferState(queue, maxSize, empty, full, mutex)
    }

    ghost predicate Valid()
      reads this
    {
      Inv(State()) && Replay(false, log) == Some(false)
    }

    constructor (size: int)
      ensures Valid() && State() == Init(size) && log == []
    {
      maxSize := size;
      queue := [];
      empty := size;
      full := 0;
      mutex := 1;
      log := [];
    }

    method Produce(item: int) returns (produced: bool)
      requires Valid()
      modifies this
      ensures Valid()
      ensures produced == (0 < old(empty))
      ensures State() == ProduceStep(old(State()), item)
      ensures log == old(log) + if produced then ProduceSteps(item) else []
    {
      if empty <= 0 {
        // `empty.acquire()` waits for a free slot
        return false;
      }
      ghost var before := log;
      empty := empty - 1;
      log := log + [AcquireEmpty];
      // `mutex.acquire()`: the mutex is free between calls, so this never waits
      mutex := mutex - 1;
      log := log + [AcquireMutex];
      queue := queue + [item];
      log := log + [Add(item)];
      mutex := mutex + 1;
      log := log + [ReleaseMutex];
      full := full + 1;
      log := log + [ReleaseFull];
      produced := true;
      assert log == before + ProduceSteps(item);
      ProtocolsKeepDiscipline(before, item);
    }

    method Consume() returns (item: Option<int>)
      requires Valid()
      modifies this
      ensures Valid()
      ensures item.Some? == (0 < old(full))
      ensures (State(), item) == ConsumeStep(old(State()))
      ensures log == old(log) + if item.Some? then ConsumeSteps(item.value) else []
    {
      if full <= 0 {
        // `full.acquire()` waits for a filled slot
        return None;
      }
      ghost var before := log;
      full := full - 1;
      log := log + [AcquireFull];
      mutex := mutex - 1;
      log := log + [AcquireMutex];
      var head := queue[0];
      queue := queue[1..];
      log := log + [Poll(head)];
      mutex := mutex + 1;
      log := log + [ReleaseMutex];
      empty := empty + 1;
      log := log + [ReleaseEmpty];
      item := Some(head);
      assert log == before + ConsumeSteps(head);
      ProtocolsKeepDiscipline(before, head);
    }
  }

  /** A buffer of two: a third item waits until a consumer frees a slot, and the items come out in
      the order they went in. */
  method Backpressure(a: int, b: int, c: int) returns (puts: seq<bool>, takes: seq<Option<int>>)
    ensures puts == [true, true, false, true]
    ensures takes == [Some(a), Some(b), Some(c), None]
  {
    var buffer := new Buffer(2);
    var p1 := buffer.Produce(a);
    var p2 := buffer.Produce(b);
    var p3 := buffer.Produce(c);
    var t1 := buffer.Consume();
    var p4 := buffer.Produce(c);
    var t2 := buffer.Consume();
    var t3 := buffer.Consume();
    var t4 := buffer.Consume();
    puts := [p1, p2, p3, p4];
    takes := [t1, t2, t3, t4];
  }
}
