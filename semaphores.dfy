/** A counting semaphore built from a lock and a condition (PrinterSemaphore) and a pool of two
    printers guarded by a counting semaphore (PrinterPool), from Multithreading/Semaphores/Example.java.

    A call that would block is one attempt: when it cannot proceed it reports so and changes nothing,
    which is what the waiting thread observes until another thread changes the state. */
module Semaphores {

  /** Permits left in the pool and the number of holders: threads between a successful acquire and
      their release. The holders are bookkeeping of this model; the semaphore itself keeps only permits. */
  datatype Pool = Pool(permits: int, holders: nat)

  datatype Request = Acquire | Release

  /** One request. An acquire waits while no permit is left; a release always adds a permit, even one
      that no holder took (it has no upper bound). */
  function Next(p: Pool, r: Request): (q: Pool)
    ensures r == Acquire && p.permits == 0 ==> q == p
    ensures r == Acquire && p.permits != 0 ==> q.permits == p.permits - 1 && q.holders == p.holders + 1
    ensures r == Release ==> q.permits == p.permits + 1
  {
    match r
    case Acquire => if p.permits == 0 then p else Pool(p.permits - 1, p.holders + 1)
    case Release => Pool(p.permits + 1, if p.holders == 0 then 0 else p.holders - 1)
  }

  function Run(p: Pool, rs: seq<Request>): Pool
    decreases |rs|
  {
    if rs == [] then p else Run(Next(p, rs[0]), rs[1..])
  }

  /** Every release in the run is made by a holder, as in `printDocument`, where the release follows
      the thread's own acquire. */
  predicate Matched(p: Pool, rs: seq<Request>)
    decreases |rs|
  {
    rs == [] || ((rs[0] == Release ==> 0 < p.holders) && Matched(Next(p, rs[0]), rs[1..]))
  }

  /** Holders plus free permits stay what they were at the start, and permits never go negative, so
      never more threads hold a permit than there were permits to begin with. */
  lemma {:induction false} RunKeepsAccounting(p: Pool, rs: seq<Request>)
    requires 0 <= p.permits && Matched(p, rs)
    ensures Run(p, rs).permits + Run(p, rs).holders == p.permits + p.holders
    ensures 0 <= Run(p, rs).permits
    ensures Run(p, rs).holders <= p.permits + p.holders
    decreases |rs|
  {
    if rs != [] {
      RunKeepsAccounting(Next(p, rs[0]), rs[1..]);
    }
  }

  /** An acquire that succeeds followed by the matching release restores the pool. */
  lemma AcquireThenReleaseRestores(p: Pool)
    requires p.permits != 0
    ensures Next(Next(p, Acquire), Release) == p
  {
  }

  /** A release that no holder makes takes the permits past the count the pool started with. */
  lemma UnmatchedReleaseExceedsStart(k: nat)
    ensures Run(Pool(k, 0), [Release]).permits == k + 1
  {
  }

  class PrinterSemaphore {
    var permits: int

    constructor (permits: int)
      ensures this.permits == permits
    {
      this.permits := permits;
    }

    /** One attempt at `acquire()`: while `permits == 0` the caller keeps waiting on the condition;
        otherwise it takes a permit. */
    method Acquire() returns (acquired: bool)
      modifies this
      ensures acquired == (old(permits) != 0)
      ensures permits == if acquired then old(permits) - 1 else old(permits)
      ensures 0 <= old(permits) ==> 0 <= permits
    {
      if permits == 0 {
        return false;
      }
      permits := permits - 1;
      acquired := true;
    }

    method Release()
      modifies this
      ensures permits == old(permits) + 1
    {
      permits := permits + 1;
    }
  }

  const MaxAvailablePrinters := 2

  class PrinterPool {
    const availablePrinters: PrinterSemaphore
    /** Users between their acquire and their release in `printDocument`. */
    ghost var printing: nat

    ghost function State(): Pool
      reads this, availablePrinters
    {
      Pool(availablePrinters.permits, printing)
    }

    ghost predicate Valid()
      reads this, availablePrinters
    {
      0 <= availablePrinters.permits && availablePrinters.permits + printing == MaxAvailablePrinters
    }

    constructor ()
      ensures Valid() && fresh(availablePrinters)
      ensures State() == Pool(MaxAvailablePrinters, 0)
    {
      availablePrinters := new PrinterSemaphore(MaxAvailablePrinters);
      printing := 0;
    }

    /** The first half of `printDocument`: acquire a printer. */
    method StartPrinting() returns (started: bool)
      requires Valid()
      modifies this, availablePrinters
      ensures Valid()
      ensures State() == Next(old(State()), Acquire)
      ensures started == (0 < old(availablePrinters.permits))
      ensures printing <= MaxAvailablePrinters
    {
      started := availablePrinters.Acquire();
      if started {
        printing := printing + 1;
      }
    }

    /** The second half of `printDocument`: the user who was printing releases the printer. */
    method FinishPrinting()
      requires Valid() && 0 < printing
      modifies this, availablePrinters
      ensures Valid()
      ensures State() == Next(old(State()), Release)
    {
      availablePrinters.Release();
      printing := printing - 1;
    }
  }

  /** Three users ask for the two printers: the third waits until one of the first two finishes. */
  method ThreeUsers() returns (first: bool, second: bool, third: bool, thirdAfterRelease: bool)
    ensures first && second && !third && thirdAfterRelease
  {
    var pool := new PrinterPool();
    first := pool.StartPrinting();
    second := pool.StartPrinting();
    third := pool.StartPrinting();
    pool.FinishPrinting();
    thirdAfterRelease := pool.StartPrinting();
  }
}
