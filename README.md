# Concurrency primitives of the OOP notes, as verified state machines

This project models the stateful part of the multithreading notes of the `oops-notes` repository:

- **Bank accounts** (`Multithreading/Synchronization/Example.java`): a `BankAccount` with a balance,
  `deposit`, a guarded `withdraw`, the class-level `globalDeposit`, and a `transfer` that first picks
  which of the two accounts to lock first from their identity hashes, then moves the money only when
  the source covers it.
- **Counting semaphore and printer pool** (`Multithreading/Semaphores/Example.java`): `PrinterSemaphore`
  is a permit counter built from a lock and a condition, and `PrinterPool` lets at most two users print
  at once.
- **Bounded producer/consumer buffer** (`Multithreading/Semaphores/ProducerCosumer.java`): a FIFO queue
  behind the semaphores `empty`, `full` and `mutex`.
- **Reader/writer book** (`Multithreading/Semaphores/ReaderWriter.java`): `readerCount` is guarded by
  `mutex`, and the shared data by `rwLock`. The first reader locks `rwLock` and the last reader unlocks it.

Every module has the same shape:

- A pure state (a datatype) and step functions specify each operation.
- Lemmas cover any sequence of steps, that is, any interleaving of the atomic steps the threads take.
- A class with the source's own fields has methods that change those fields step by step. Each method
  is proved to have exactly the effect of its step function.

Scheduling is abstracted away. A synchronized method is one atomic step. `transfer` is not: its locks
are the accounts' private lock objects, while `deposit` and `withdraw` synchronize on the account
itself, so another thread's `withdraw` can run between the balance check and the transfer's own
withdrawal (see Findings). The model keeps that gap in `Synchronization.TransferAsWritten` and otherwise
treats a transfer as the one atomic step it is meant to be. A semaphore `acquire` that would block becomes one attempt. When it cannot proceed, the attempt
reports so and changes nothing, which is what the waiting thread sees until another thread changes the
state. `read` and `write` are split at their reading and writing sections, so that readers and writers
can interleave. `printDocument` is split the same way.

Files: `synchronization.dfy` (module `Synchronization`), `semaphores.dfy` (`Semaphores`),
`producer_consumer.dfy` (`ProducerConsumer`), `reader_writer.dfy` (`ReaderWriter`).

The code differs from the textbook form of these patterns in four places, and the model follows the code:

- `PrinterSemaphore.acquire` waits only while `permits == 0`, not while `permits <= 0`. A semaphore
  created with a negative count therefore hands out permits and goes further below zero. Non-negativity
  holds only from a non-negative start, which is what `PrinterSemaphore.Acquire` states.
- In `Book.read`, the first reader increments `readerCount` before it acquires `rwLock`, and it keeps
  holding `mutex` while it waits. So `readerCount == 1` while a writer is writing is reachable
  (`ReaderWriter.ReaderCountedDuringWrite`). Readers and a writer are still never inside their sections
  together. The model states mutual exclusion over the readers inside their reading section, not over
  `readerCount`.
- `release` has no upper bound. A release that no holder makes raises the permits past the starting
  count (`Semaphores.UnmatchedReleaseExceedsStart`). Nothing reports it as an error.
- `transfer` locks the account with the smaller identity hash first. On equal hashes it falls back to
  locking `this` first. Then the order depends on the direction of the transfer
  (`Synchronization.LockOrderOnEqualKeys`).

## Model

| member | source | states |
|---|---|---|
| `Synchronization.Withdrawn` | Multithreading/Synchronization/Example.java:44-51 | a covered amount is taken in full; with insufficient funds the balance is unchanged; a non-negative balance never becomes negative, whatever the amount |
| `Synchronization.Transferred` | Multithreading/Synchronization/Example.java:74-80 | a transfer between two accounts preserves their sum; with insufficient funds neither balance changes (no partial update); otherwise the source loses and the destination gains exactly the amount |
| `Synchronization.BankAccount.constructor` | Multithreading/Synchronization/Example.java:33-35 | a new account holds the initial balance; its identity key is fixed for its lifetime |
| `Synchronization.BankAccount.Deposit` | Multithreading/Synchronization/Example.java:38-41 | the balance grows by exactly the amount, and only this account changes |
| `Synchronization.BankAccount.Withdraw` | Multithreading/Synchronization/Example.java:44-51 | the new balance is `Withdrawn` of the old one: unchanged when the amount is not covered |
| `Synchronization.BankAccount.GlobalDeposit` | Multithreading/Synchronization/Example.java:54-57 | exactly the effect of `account.deposit(amount)` on that account and nothing else |
| `Synchronization.BankAccount.Transfer` | Multithreading/Synchronization/Example.java:60-83 | the transfer as intended, one atomic step (its lock order is modelled separately by `LockOrder`): reports whether the source covered the amount; for distinct accounts both balances become `Transferred` of the old ones; a self-transfer leaves the balance unchanged; only the two accounts change |
| `Synchronization.BankAccount.GetBalance` | Multithreading/Synchronization/Example.java:86-88 | returns the current balance |
| `Synchronization.LockOrder` | Multithreading/Synchronization/Example.java:62-69 | the locked pair is the two accounts in some order; the first has the smaller or equal key; on equal keys the source is first |
| `Synchronization.LockOrderIgnoresDirection` | Multithreading/Synchronization/Example.java:62-72 | with distinct keys, `a.transfer(b, _)` and `b.transfer(a, _)` lock the same account first, and it is the one with the strictly smaller key |
| `Synchronization.LockOrderOnEqualKeys` | Multithreading/Synchronization/Example.java:66-69 | two distinct accounts with equal keys are each locked first by their own transfers, so the order depends on direction |
| `Synchronization.Apply` | Multithreading/Synchronization/Example.java:38-83 | one deposit, withdrawal or transfer over several accounts changes only the balances it names |
| `Synchronization.TransferMatchesPair` | Multithreading/Synchronization/Example.java:74-80 | a transfer between two distinct accounts of the ledger has the effect `Transferred` gives |
| `Synchronization.SelfTransferIsIdentity` | Multithreading/Synchronization/Example.java:74-76 | a transfer from an account to itself, done as withdraw then deposit, leaves all balances unchanged |
| `Synchronization.TransferPreservesTotal` | Multithreading/Synchronization/Example.java:74-76 | one transfer preserves the sum of all balances |
| `Synchronization.TransfersPreserveTotal` | Multithreading/Synchronization/Example.java:60-83 | any sequence of transfers among any number of accounts preserves the sum of all balances |
| `Synchronization.RunKeepsBalancesNonNegative` | Multithreading/Synchronization/Example.java:44-80 | from non-negative balances, any sequence of withdrawals, transfers and deposits with non-negative credits keeps every balance non-negative |
| `Synchronization.TransferAsWritten` | Multithreading/Synchronization/Example.java:71-76 | `transfer` as written: the check runs under the private lock objects; before the synchronized withdrawal, which checks again, and the deposit, which does not, other threads may run deposits, withdrawals and transfers between other accounts, but no transfer involving either of the two accounts, whose private locks are held |
| `Synchronization.TransferAsWrittenAlone` | Multithreading/Synchronization/Example.java:71-76 | with no other thread in between, the transfer as written is the atomic transfer |
| `Synchronization.TransferAsWrittenTotal` | Multithreading/Synchronization/Example.java:38-76 | whatever runs in between, the transfer's own updates add exactly the amount to the total when the check passed but the withdrawal then found too little, and otherwise keep it |
| `Synchronization.TransferRaceCreatesMoney` | Multithreading/Synchronization/Example.java:71-76 | from balances 5 and 0, a `withdraw(5)` between the check and the withdrawal of `transfer(…, 5)` ends in balances 0 and 5 with both the withdrawal and the credit done, which neither order of the two as atomic steps allows: transfer first, the withdrawal takes nothing; withdrawal first, the transfer fails |
| `Synchronization.OpposedTransfers` | Multithreading/Synchronization/Example.java:179-189 | rounds of transfers in both directions between two accounts preserve the sum and keep both balances non-negative |
| `Semaphores.Next` | Multithreading/Semaphores/Example.java:100-120 | an acquire with no permit changes nothing (the caller waits); otherwise it takes exactly one permit and adds a holder; a release adds exactly one permit |
| `Semaphores.RunKeepsAccounting` | Multithreading/Semaphores/Example.java:43-51 | when every release is made by a holder, holders plus free permits stay constant and permits never go negative, so there are never more holders than initial permits |
| `Semaphores.AcquireThenReleaseRestores` | Multithreading/Semaphores/Example.java:100-120 | a successful acquire followed by a release restores the semaphore |
| `Semaphores.UnmatchedReleaseExceedsStart` | Multithreading/Semaphores/Example.java:112-120 | a release without a matching acquire raises the permits above the initial count |
| `Semaphores.PrinterSemaphore.constructor` | Multithreading/Semaphores/Example.java:96-98 | the semaphore starts with the given permits |
| `Semaphores.PrinterSemaphore.Acquire` | Multithreading/Semaphores/Example.java:100-110 | proceeds exactly when `permits != 0` and then takes one permit; otherwise nothing changes; permits never become negative from a non-negative start |
| `Semaphores.PrinterSemaphore.Release` | Multithreading/Semaphores/Example.java:112-120 | the permits grow by exactly one, with no upper bound |
| `Semaphores.PrinterPool.constructor` | Multithreading/Semaphores/Example.java:39-41 | the pool starts with two free printers and nobody printing |
| `Semaphores.PrinterPool.StartPrinting` | Multithreading/Semaphores/Example.java:43-45 | a user starts printing exactly when a printer is free; printing users plus free printers stay 2, so at most two print at once |
| `Semaphores.PrinterPool.FinishPrinting` | Multithreading/Semaphores/Example.java:50-51 | a printing user gives the printer back; the accounting stays at 2 |
| `Semaphores.ThreeUsers` | Multithreading/Semaphores/Example.java:59-72 | of three users, the third waits until one of the first two finishes |
| `ProducerConsumer.ProtocolsKeepDiscipline` | Multithreading/Semaphores/ProducerCosumer.java:21-42 | each call takes `mutex` after its capacity semaphore and releases it before signalling the other side; the queue is touched only under `mutex`, and `mutex` is never held across a wait on `empty` or `full` |
| `ProducerConsumer.SwappedOrderBreaksDiscipline` | Multithreading/Semaphores/ProducerCosumer.java:22-23 | taking `mutex` before `empty` would break that rule |
| `ProducerConsumer.Init` | Multithreading/Semaphores/ProducerCosumer.java:14-19 | a new buffer has an empty queue, `empty == size`, `full == 0`, `mutex == 1` |
| `ProducerConsumer.ProduceStep` | Multithreading/Semaphores/ProducerCosumer.java:21-31 | `produce` proceeds only when a slot is free and then appends at the tail; the counters keep free slots plus queued items equal the size, `full` equals the number of queued items, `mutex == 1`; the queue never exceeds the size |
| `ProducerConsumer.ConsumeStep` | Multithreading/Semaphores/ProducerCosumer.java:33-42 | `consume` proceeds only when `full > 0`, so the queue is never polled while empty; it returns and removes the head and leaves the rest; the counter invariant is kept |
| `ProducerConsumer.ProduceThenConsumeRestores` | Multithreading/Semaphores/ProducerCosumer.java:21-42 | `produce(x)` on a new buffer followed by `consume()` returns `x` and restores the initial counters |
| `ProducerConsumer.RunCalls` | Multithreading/Semaphores/ProducerCosumer.java:21-42 | any interleaving of `produce` and `consume` calls keeps the counter invariant |
| `ProducerConsumer.RunIsFifo` | Multithreading/Semaphores/ProducerCosumer.java:21-42 | FIFO: over any interleaving, the items consumed followed by those still queued equal the items queued at the start followed by those produced, in order |
| `ProducerConsumer.Buffer.constructor` | Multithreading/Semaphores/ProducerCosumer.java:14-19 | the object starts in the state `Init(size)` |
| `ProducerConsumer.Buffer.Produce` | Multithreading/Semaphores/ProducerCosumer.java:21-31 | has the effect of `ProduceStep`, keeps the invariant, and performs acquire `empty`, acquire `mutex`, add, release `mutex`, release `full` in that order |
| `ProducerConsumer.Buffer.Consume` | Multithreading/Semaphores/ProducerCosumer.java:33-42 | has the effect of `ConsumeStep`, keeps the invariant, and performs acquire `full`, acquire `mutex`, poll, release `mutex`, release `empty` in that order |
| `ProducerConsumer.Backpressure` | Multithreading/Semaphores/ProducerCosumer.java:47-71 | with room for two items, a third produce waits until a consume frees a slot, and the items come out in the order they went in |
| `ReaderWriter.Init` | Multithreading/Semaphores/ReaderWriter.java:7-15 | a new book has both semaphores free (`mutex` and `rwLock` at 1), `readerCount == 0`, `sharedData == 0`, and nobody inside; it satisfies the invariant |
| `ReaderWriter.ReadEntry` | Multithreading/Semaphores/ReaderWriter.java:24-29 | a reader waits on `mutex` exactly when it is taken, and then nothing changes; the first reader waits on `rwLock` exactly when a writer holds it, and then holds `mutex` with `readerCount == 1`; otherwise it enters exactly when `mutex` is free and either other readers are in or `rwLock` is free; only the reader that moves `readerCount` from 0 to 1 takes `rwLock`; entering never changes the data |
| `ReaderWriter.ReadResume` | Multithreading/Semaphores/ReaderWriter.java:26-29 | the first reader, waiting for `rwLock` while holding `mutex`, enters exactly when the writer has released `rwLock`, and then gives `mutex` back |
| `ReaderWriter.ReadExit` | Multithreading/Semaphores/ReaderWriter.java:35-40 | `rwLock` is released exactly by the reader that moves `readerCount` from 1 to 0; the data is unchanged and `mutex` is back at 1 |
| `ReaderWriter.WriteEntry` | Multithreading/Semaphores/ReaderWriter.java:51-54 | a writer starts exactly when no reader and no other writer is inside; it then holds `rwLock`, the data is the written value, and nothing else changes; otherwise nothing changes |
| `ReaderWriter.WriteExit` | Multithreading/Semaphores/ReaderWriter.java:58 | after a write `rwLock` is back at 1 and nobody is inside; nothing else changes, so the data stays the written value |
| `ReaderWriter.ReadRestores` | Multithreading/Semaphores/ReaderWriter.java:23-41 | a complete read returns `readerCount`, `rwLock` and `mutex` to their prior values and leaves the data alone |
| `ReaderWriter.WriteRestores` | Multithreading/Semaphores/ReaderWriter.java:50-59 | a complete write changes only the data, to the written value |
| `ReaderWriter.Run` | Multithreading/Semaphores/ReaderWriter.java:23-59 | over any interleaving of readers and writers, readers and a writer are never inside together, at most one writer is, `rwLock` stays in 0..1 and is 0 exactly while someone reads or writes |
| `ReaderWriter.ReadersLeaveData` | Multithreading/Semaphores/ReaderWriter.java:23-41 | readers never modify the shared data |
| `ReaderWriter.ReadersEnterTogether` | Multithreading/Semaphores/ReaderWriter.java:24-29 | with no writer, `n` readers all enter without waiting and `readerCount` reaches `n` |
| `ReaderWriter.ReadersLeave` | Multithreading/Semaphores/ReaderWriter.java:35-40 | `n` readers leaving bring `readerCount` back to 0 and release `rwLock` once |
| `ReaderWriter.ReadersComeAndGo` | Multithreading/Semaphores/ReaderWriter.java:23-41 | `n` readers entering and then leaving restore the initial book |
| `ReaderWriter.ReaderCountedDuringWrite` | Multithreading/Semaphores/ReaderWriter.java:24-28 | a reader arriving during a write is counted by `readerCount` while the writer is still inside |
| `ReaderWriter.Book.constructor` | Multithreading/Semaphores/ReaderWriter.java:7-15 | the object starts in the state `Init()` |
| `ReaderWriter.Book.BeginRead` | Multithreading/Semaphores/ReaderWriter.java:24-29 | has the effect of `ReadEntry` and keeps the invariant |
| `ReaderWriter.Book.ResumeRead` | Multithreading/Semaphores/ReaderWriter.java:27-29 | has the effect of `ReadResume` and keeps the invariant |
| `ReaderWriter.Book.ReadData` | Multithreading/Semaphores/ReaderWriter.java:32 | a reader sees the current shared data |
| `ReaderWriter.Book.EndRead` | Multithreading/Semaphores/ReaderWriter.java:35-40 | has the effect of `ReadExit` and keeps the invariant |
| `ReaderWriter.Book.BeginWrite` | Multithreading/Semaphores/ReaderWriter.java:51-54 | has the effect of `WriteEntry` and keeps the invariant |
| `ReaderWriter.Book.EndWrite` | Multithreading/Semaphores/ReaderWriter.java:58 | has the effect of `WriteExit` and keeps the invariant |
| `ReaderWriter.WriterThenReaders` | Multithreading/Semaphores/ReaderWriter.java:64-91 | a reader arriving during a write waits, holding `mutex`, and a second reader waits on `mutex`; after the write both read 42 and the book is idle again |

## Findings

| source | as written | input that shows it | evidently intended | confidence | as-written member | corrected member |
|---|---|---|---|---|---|---|
| Multithreading/Synchronization/Example.java:71-76 | `transfer` checks the balance holding only the two private `lock` objects, while `withdraw` and `deposit` synchronize on the accounts, so nothing stops another thread's `withdraw` between the check and the transfer's own withdrawal; that withdrawal then takes nothing but the deposit still runs | account A holds 5, B holds 0; one thread runs `A.transfer(B, 5)` and passes the check; another runs `A.withdraw(5)`; the transfer's withdrawal finds 0 and does nothing, its deposit makes B 5: 5 withdrawn and 5 credited out of 5 | the check and both updates are one atomic step, so a transfer never credits what it did not withdraw and preserves the total | high (not executed) | `Synchronization.TransferRaceCreatesMoney` | `Synchronization.TransferPreservesTotal` |

## Left out

- Thread creation, `start`/`join`, `Thread.sleep`, `Thread.yield`, the `main` methods and all printing:
  these are runtime plumbing and output. The scenario methods replay a few of the `main` methods'
  threads one step after another.
- Real interleaving inside a step, `condition.await`/`signal` wake-ups and semaphore fairness (the fair
  mode of the printer pool's semaphore): a step is atomic, and a waiting thread is a step that does not
  proceed. Deadlock freedom as a liveness property is not stated; lock ordering is stated as a property
  of `LockOrder`.
- `Synchronization.BankAccount.Transfer`: modelled as one atomic step, the evidently intended
  behaviour; the gap between its check and its withdrawal that the source leaves open is modelled on
  values only, by `Synchronization.TransferAsWritten` (see Findings).
- `InterruptedException`: no step is interrupted.
- Java's 32-bit `int` overflow: balances, permits and counters are unbounded integers.
- `System.identityHashCode`: the JVM assigns it, and it is modelled as a key passed to the account's
  constructor and fixed for the account's lifetime. `toString` and the private lock objects are left out.
- `PrinterPool.printDocument`: its document name and user id are only printed, so the two steps take
  no arguments. Its semaphore is the JDK's `Semaphore`, and it is modelled by `PrinterSemaphore`. Within
  the pool the two agree, because the permits never go below zero there.
- The JDK `Semaphore` behind `empty`, `full`, `mutex` and `rwLock` is an integer counter that waits
  while it is not positive.
- `Semaphores.Next`, `ReaderWriter.Step`: a release, exit or resume that no thread is in a position to
  make is not a step of the source. The model keeps the permit count of an unmatched release but
  otherwise treats such an event as doing nothing.
- Interfaces/BankingSystem.java, ExceptionHandling, ObjectCloning and the object-model demonstrations
  are not part of this model: they use floating point or I/O, or have no state machine.
