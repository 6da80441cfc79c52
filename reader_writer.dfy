/** The reader/writer scheme of Multithreading/Semaphores/ReaderWriter.java: a `Book` whose
    `readerCount` is guarded by `mutex` and whose shared data is guarded by the binary semaphore
    `rwLock`, with the rule that the first reader locks `rwLock` and the last reader unlocks it.

    `read` and `write` are split at their reading and writing sections into an entry step and an exit
    step, so that readers and writers can interleave. The first reader increments `readerCount` and then,
    still holding `mutex`, waits for `rwLock` while a writer is inside; that wait is a state of its own
    here, left by ResumeRead. The counts of active readers and writers are bookkeeping of this model. */
module ReaderWriter {

  /** `readers` counts the readers inside their reading section, `writers` the writers inside theirs. */
  datatype Gate = Gate(mutex: int, rwLock: int, readerCount: int, sharedData: int, readers: nat, writers: nat)

  /** Between steps: `rwLock` is taken exactly while someone reads or writes, readers and a writer are
      never inside together, at most one writer is, and `mutex` is taken only by a first reader waiting
      for the writer to leave, whom `readerCount` already counts. */
  predicate Inv(g: Gate)
  {
    && (g.mutex == 0 || g.mutex == 1)
    && 0 <= g.rwLock <= 1
    && g.writers <= 1
    && !(0 < g.readers && 0 < g.writers)
    && (g.rwLock == 0 <==> 0 < g.readers || 0 < g.writers)
    && g.readerCount == g.readers + (if g.mutex == 0 then 1 else 0)
    && (g.mutex == 0 ==> g.readers == 0)
  }

  function Init(): (g: Gate)
    ensures Inv(g)
    // both semaphores free, nobody counted or inside, and the data at its default
    ensures g.mutex == 1 && g.rwLock == 1 && g.readerCount == 0 && g.sharedData == 0
    ensures g.readers == 0 && g.writers == 0
  {
    Gate(1, 1, 0, 0, 0, 0)
  }

  /** How the entry protocol of `read` ends for the calling reader. */
  datatype Entry =
    | Entered            // inside the reading section
    | WaitingForMutex    // blocked on `mutex`, held by a first reader: nothing changed
    | WaitingForWriter   // the first reader, holding `mutex`, blocked on `rwLock`

  /** The entry protocol of `read`: take `mutex`, count the reader, and, for the first one, take
      `rwLock`; then give `mutex` back. */
  function ReadEntry(g: Gate): (r: (Gate, Entry))
    requires Inv(g)
    ensures Inv(r.0)
    ensures r.0.sharedData == g.sharedData && r.0.writers == g.writers
    // only the reader that moves readerCount from 0 to 1 takes rwLock
    ensures r.0.rwLock != g.rwLock ==> g.readerCount == 0 && r.0.readerCount == 1
    ensures r.1 == Entered <==> g.mutex == 1 && (0 < g.readerCount || g.rwLock == 1)
    ensures r.1 == Entered ==> r.0.readers == g.readers + 1 && r.0.readerCount == g.readerCount + 1
    ensures r.1 == WaitingForMutex <==> g.mutex == 0
    ensures r.1 == WaitingForMutex ==> r.0 == g
    // the first reader finds rwLock taken by a writer: it is counted and keeps mutex while it waits
    ensures r.1 == WaitingForWriter <==> g.mutex == 1 && g.readerCount == 0 && g.rwLock == 0
    ensures r.1 == WaitingForWriter ==> r.0 == g.(mutex := 0, readerCount := 1)
  {
    if g.mutex == 0 then (g, WaitingForMutex)
    else
      var count := g.readerCount + 1;
      if count == 1 then
        if g.rwLock == 0 then (g.(mutex := 0, readerCount := count), WaitingForWriter)
        else (g.(rwLock := 0, readerCount := count, readers := g.readers + 1), Entered)
      else (g.(readerCount := count, readers := g.readers + 1), Entered)
  }

  /** The first reader waiting for `rwLock` tries again: once the writer has left it takes `rwLock`
      and gives `mutex` back. */
  function ReadResume(g: Gate): (r: (Gate, bool))
    requires Inv(g) && g.mutex == 0
    ensures Inv(r.0)
    ensures r.1 <==> g.rwLock == 1
    ensures r.1 ==> r.0 == g.(mutex := 1, rwLock := 0, readers := 1)
    ensures !r.1 ==> r.0 == g
  {
    if g.rwLock == 0 then (g, false)
    else (g.(mutex := 1, rwLock := 0, readers := g.readers + 1), true)
  }

  /** The exit protocol of `read`, for a reader inside its reading section. */
  function ReadExit(g: Gate): (r: Gate)
    requires Inv(g) && 0 < g.readers
    ensures Inv(r)
    ensures r.sharedData == g.sharedData && r.readers == g.readers - 1
    // only the reader that moves readerCount from 1 to 0 releases rwLock
    ensures r.rwLock != g.rwLock <==> g.readerCount == 1
    ensures r.readerCount == g.readerCount - 1 && r.mutex == 1
  {
    var count := g.readerCount - 1;
    g.(readerCount := count, readers := g.readers - 1, rwLock := if count == 0 then g.rwLock + 1 else g.rwLock)
  }

  /** The entry of `write`: take `rwLock` and write `value`; waits while `rwLock` is taken. */
  function WriteEntry(g: Gate, value: int): (r: (Gate, bool))
    requires Inv(g)
    ensures Inv(r.0)
    // a writer starts only when no reader and no other writer is inside
    ensures r.1 <==> g.readers == 0 && g.writers == 0
    ensures r.1 ==> r.0 == g.(rwLock := 0, sharedData := value, writers := 1)
    ensures !r.1 ==> r.0 == g
  {
    if g.rwLock == 0 then (g, false)
    else (g.(rwLock := 0, sharedData := value, writers := g.writers + 1), true)
  }

  /** The exit of `write`: give `rwLock` back. */
  function WriteExit(g: Gate): (r: Gate)
    requires Inv(g) && 0 < g.writers
    ensures Inv(r)
    ensures r.rwLock == 1 && r.writers == 0 && r.readers == 0
    // nothing else changes: the data stays the written value
    ensures r == g.(rwLock := 1, writers := 0)
  {
    g.(rwLock := g.rwLock + 1, writers := g.writers - 1)
  }

  /** A complete read leaves the gate exactly as it found it. */
  lemma ReadRestores(g: Gate)
    requires Inv(g) && ReadEntry(g).1 == Entered
    ensures ReadExit(ReadEntry(g).0) == g
  {
  }

  /** A complete write leaves the gate as it found it, except for the data. */
  lemma WriteRestores(g: Gate, value: int)
    requires Inv(g) && WriteEntry(g, value).1
    ensures WriteExit(WriteEntry(g, value).0) == g.(sharedData := value)
  {
  }

  /* ---------------------------------------------------------------------------------------------
     Any interleaving of the steps of any number of readers and writers
     --------------------------------------------------------------------------------------------- */

  datatype Event = BeginRead | ResumeRead | EndRead | BeginWrite(value: int) | EndWrite

  /** One event. An exit or a resume with no thread in the position to make it changes nothing. */
  function Step(g: Gate, e: Event): Gate
    requires Inv(g)
  {
    match e
    case BeginRead => ReadEntry(g).0
    case ResumeRead => if g.mutex == 0 then ReadResume(g).0 else g
    case EndRead => if 0 < g.readers then ReadExit(g) else g
    case BeginWrite(v) => WriteEntry(g, v).0
    case EndWrite => if 0 < g.writers then WriteExit(g) else g
  }

  function Run(g: Gate, es: seq<Event>): (r: Gate)
    requires Inv(g)
    // mutual exclusion and the rwLock accounting hold after every interleaving
    ensures Inv(r)
    decreases |es|
  {
    if es == [] then g else Run(Step(g, es[0]), es[1..])
  }

  lemma {:induction false} RunAppend(g: Gate, a: seq<Event>, b: seq<Event>)
    requires Inv(g)
    ensures Run(g, a + b) == Run(Run(g, a), b)
    decreases |a|
  {
    if a == [] {
      assert a + b == b;
    } else {
      assert (a + b)[0] == a[0] && (a + b)[1..] == a[1..] + b;
      RunAppend(Step(g, a[0]), a[1..], b);
    }
  }

  predicate NoWrites(es: seq<Event>)
  {
    forall k :: 0 <= k < |es| ==> !es[k].BeginWrite?
  }

  /** Readers never change the shared data. */
  lemma {:induction false} ReadersLeaveData(g: Gate, es: seq<Event>)
    requires Inv(g) && NoWrites(es)
    ensures Run(g, es).sharedData == g.sharedData
    decreases |es|
  {
    if es != [] {
      ReadersLeaveData(Step(g, es[0]), es[1..]);
    }
  }

  function Repeat(e: Event, n: nat): (es: seq<Event>)
    ensures |es| == n && forall k :: 0 <= k < n ==> es[k] == e
  {
    if n == 0 then [] else [e] + Repeat(e, n - 1)
  }

  /** With no writer inside, `n` readers all enter without waiting and `readerCount` reaches `n`. */
  lemma {:induction false} ReadersEnterTogether(n: nat)
    ensures Run(Init(), Repeat(BeginRead, n)) == Gate(1, if n == 0 then 1 else 0, n, 0, n, 0)
  {
    if n != 0 {
      ReadersEnterTogether(n - 1);
      assert Repeat(BeginRead, n) == Repeat(BeginRead, n - 1) + [BeginRead];
      RunAppend(Init(), Repeat(BeginRead, n - 1), [BeginRead]);
    }
  }

  /** Starting from `n` readers inside, `n` exits bring the gate back to its initial state. */
  lemma {:induction false} ReadersLeave(n: nat, data: int)
    ensures Run(Gate(1, if n == 0 then 1 else 0, n, data, n, 0), Repeat(EndRead, n)) == Init().(sharedData := data)
  {
    if n != 0 {
      var g := Gate(1, if n == 0 then 1 else 0, n, data, n, 0);
      assert Step(g, EndRead) == Gate(1, if n - 1 == 0 then 1 else 0, n - 1, data, n - 1, 0);
      ReadersLeave(n - 1, data);
    }
  }

  lemma ReadersComeAndGo(n: nat)
    ensures Run(Init(), Repeat(BeginRead, n) + Repeat(EndRead, n)) == Init()
  {
    RunAppend(Init(), Repeat(BeginRead, n), Repeat(EndRead, n));
    ReadersEnterTogether(n);
    ReadersLeave(n, 0);
  }

  /** A reader arriving while a writer is inside is counted by `readerCount` before it can take
      `rwLock`: readerCount is 1 while the writer writes, though no reader reads. */
  lemma ReaderCountedDuringWrite(value: int)
    ensures var g := Run(Init(), [BeginWrite(value), BeginRead]);
      g.readerCount == 1 && g.writers == 1 && g.readers == 0 && g.mutex == 0
  {
    var es := [BeginWrite(value), BeginRead];
    var writing := Step(Init(), es[0]);
    assert es[1..] == [BeginRead] && [BeginRead][1..] == [];
    assert Run(Init(), es) == Run(writing, [BeginRead]) == Step(writing, BeginRead);
  }

  /* ---------------------------------------------------------------------------------------------
     The book object
     --------------------------------------------------------------------------------------------- */

  class Book {
    var mutex: int
    var rwLock: int
    var readerCount: int
    var sharedData: int
    ghost var readers: nat
    ghost var writers: nat

    ghost function State(): Gate
      reads this
    {
      Gate(mutex, rwLock, readerCount, sharedData, readers, writers)
    }

    ghost predicate Valid()
      reads this
    {
      Inv(State())
    }

    constructor ()
      ensures Valid() && State() == Init()
    {
      mutex := 1;
      rwLock := 1;
      readerCount := 0;
      sharedData := 0;
      readers := 0;
      writers := 0;
    }

    method BeginRead() returns (entry: Entry)
      requires Valid()
      modifies this
      ensures Valid()
      ensures (State(), entry) == ReadEntry(old(State()))
    {
      if mutex == 0 {
        // `mutex.acquire()` waits
        return WaitingForMutex;
      }
      mutex := mutex - 1;
      readerCount := readerCount + 1;
      if readerCount == 1 {
        if rwLock == 0 {
          // the first reader waits for `rwLock` while still holding `mutex`
          return WaitingForWriter;
        }
        rwLock := rwLock - 1;
      }
      readers := readers + 1;
      mutex := mutex + 1;
      entry := Entered;
    }

    /** The first reader, blocked on `rwLock` while holding `mutex`, tries again. */
    method ResumeRead() returns (entered: bool)
      requires Valid() && mutex == 0
      modifies this
      ensures Valid()
      ensures (State(), entered) == ReadResume(old(State()))
    {
      if rwLock == 0 {
        return false;
      }
      rwLock := rwLock - 1;
      readers := readers + 1;
      mutex := mutex + 1;
      entered := true;
    }

    /** The reading section: the value a reader sees. */
    method ReadData() returns (value: int)
      ensures value == sharedData
    {
      value := sharedData;
    }

    /** The exit protocol of `read`, for a reader inside its reading section. */
    method EndRead()
      requires Valid() && 0 < readers
      modifies this
      ensures Valid()
      ensures State() == ReadExit(old(State()))
    {
      // `mutex.acquire()`: only a waiting first reader holds it, and then no one is reading
      mutex := mutex - 1;
      readerCount := readerCount - 1;
      if readerCount == 0 {
        rwLock := rwLock + 1;
      }
      readers := readers - 1;
      mutex := mutex + 1;
    }

    method BeginWrite(value: int) returns (started: bool)
      requires Valid()
      modifies this
      ensures Valid()
      ensures (State(), started) == WriteEntry(old(State()), value)
    {
      if rwLock == 0 {
        // `rwLock.acquire()` waits
        return false;
      }
      rwLock := rwLock - 1;
      writers := writers + 1;
      sharedData := value;
      started := true;
    }

    method EndWrite()
      requires Valid() && 0 < writers
      modifies this
      ensures Valid()
      ensures State() == WriteExit(old(State()))
    {
      rwLock := rwLock + 1;
      writers := writers - 1;
    }
  }

  /** A writer writes 42 while a reader arrives: the reader waits, holding `mutex`, and a second
      reader waits on `mutex`; once the writer leaves, both read 42 and leave, and the book is idle. */
  method WriterThenReaders() returns (first: int, second: int, idle: bool)
    ensures first == 42 && second == 42 && idle
  {
    var book := new Book();
    var started := book.BeginWrite(42);
    var entry1 := book.BeginRead();
    var entry2 := book.BeginRead();
    assert entry1 == WaitingForWriter && entry2 == WaitingForMutex;
    book.EndWrite();
    var resumed := book.ResumeRead();
    entry2 := book.BeginRead();
    first := book.ReadData();
    second := book.ReadData();
    book.EndRead();
    book.EndRead();
    idle := book.readerCount == 0 && book.rwLock == 1 && book.mutex == 1;
  }
}
