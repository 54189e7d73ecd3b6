# Command queue, colours, locks, blocks and input of the server

This project models five parts of the server's C code and proves what they keep.

- **The command queue** (`src/netmush/cque*.c`). Four linked lists of queue entries, a table
  of process ids, semaphore counters, a quota counter and a deposit per owner. `QueueSpec`
  says what every operation does to the abstract state; class `CommandQueue` does it with
  records, head and tail pointers, trail pointers and loops, and each method is proved to do
  what the function says. `QueueTheorems` and the modules it uses prove what every run keeps:
  the table and the lists agree, no owner exceeds the quota, waiters never outnumber a
  semaphore's counter, every deposit is returned at most once, nothing runs twice or out of
  order. `CommandQueue.Serve` runs a whole history on the linked records, so the theorems
  hold of them.
- **Colour sequences** (`src/netmush/ansi.c`). The writer of 256-colour SGR sequences
  (ECMA-48, section 8.3.117) and the parser for them. A transition takes a parser that looks
  like its origin to one that looks like its target, exactly if the target's colours are
  faithful (below); a text painted character by character reads back.
- **Locks** (`src/netmush/boolexp_parse.c`, `boolexp.c`, `unparse.c`). The depth-limited
  parser, the quiet printer and the evaluator. A printed lock reads back nested to the right,
  exactly if its nesting fits the depth limit, and locks the same.
- **The tracked allocator** (`src/netmush/alloc.c`). Blocks with guards in one flat memory,
  and writers that stop at the guard.
- **Telnet input** (`src/netmush/bsd_io.c`, RFC 854, section "TELNET COMMAND STRUCTURE").
  One pass over a read equals three, and cutting the stream into reads does not matter
  unless it cuts a command.

`Packing` adds the save string of `cque_setup_que`. Each part has a module of functions
(`...Spec`, `...Syntax`), modules of lemmas, and a module with the methods. `QueueLaws`,
`QueueDue`, `SgrForms`, `LockLaws` and `TelnetTyping` say what the functions mean in terms of
entries, times, colours, players and bytes, without naming the functions' own parts.

## What the code does that one might not expect

- `payfor` asks about the object, `halt_que` and `cque_do_halt_pid` give back to its owner.
  Money is conserved in all runs exactly if every object and its owner are both charged or
  both exempt, and an owner that pays owns itself (`QueueTheorems.ConservedIffFair`).
- `cque_setup_que` charges and counts before it can still fail, and `cque_do_top` drops the
  entries of Going objects without a refund. The ledger keeps both losses in accounts of
  their own, so it is an equation in every run; `QueueTheorems.NothingLostIff` says on which
  runs those accounts stay empty.
- A failed wait leaves the semaphore's counter raised, and a notify with attribute 0 clears
  the default attribute only; exactly these make a counter exceed its waiters
  (`QueueTheorems.ExactIffOrderly`).
- `cque_nfy_que` returns the number of entries notified, but the counter itself where that
  is not positive (`CommandQueue.CommandQueue.NotifyQueue`).
- `cque_do_halt_pid` on a run-queue entry deletes a record that stays linked, and
  `cque_do_wait_pid` links one into the wait queue as well, unless it waited on a semaphore
  before (`QueueTheorems.HaltPidKeepsLinks`, `RetimePidKeepsLinks`; `PidBreaks` gives a run).
- `cque_que_next` keeps the low 32 bits of a difference of times. A timed semaphore wait far
  in the past can make the server sleep past it (`QueueSchedule.NeverOversleeps`,
  `OversleepExample`).
- A highlighted colour whose ANSI index is bright and whose palette index is dark is written
  as it is and read back brightened (`SgrTheorems.PaintedRead`, `UnfaithfulExample`).
- Attribute names may hold `/`, `&` and `)`; a lock on such an attribute does not read back
  (`LockTheorems.AttrSurvivesIff`). Four internal attributes have names that `atr_str` does
  not look up; a lock on one of them can be given by number, is written by name, and once
  written lets everyone pass (`LockTheorems.StarredLost`, `LockMeaning.StarredOpens`). A lock that reaches the nesting limit can depend on the
  limit's parity (`LockMeaning.LiarAlternates`).
- The comments in `bsd_io.c` let backspace edit a line; it is not in the character table, so
  it never does (`TelnetSpec.BackspaceIgnored`).

## What stands for what

Name matching, permissions, configuration, clocks, random numbers and texts sent to players
are parameters: `Db` and `World` hold what is read of the object database, `Luck` whether the
machine surcharge hits and the save string can be allocated, which it cannot if it is empty
or its length is no int, `now` the clock. A running command is
a script: any list of operations on the queue. Entries carry a serial number and states carry
a history, which no operation reads and the theorems speak about. `Db.Consistent` says that
the owner of a valid object is a valid owner; `World.Consistent` what the attribute table
guarantees of names and numbers.

## Model

| member | source | states |
|---|---|---|
| QueueTheorems.ReachableQueues | src/netmush/cque_exec.c:282-545 | in every reachable state the PID table maps exactly the linked entries, no PID or entry is linked twice, only run-queue entries are tombstones, the wait queue is sorted |
| QueueTheorems.ReachableQuota | src/netmush/cque.c:101-125 | in every reachable state an owner has no more live entries than its counter shows, nor than its QueueMax |
| QueueTheorems.ReachableSemaphores | src/netmush/cque_wait.c:463-473 | in every reachable state no more entries wait on a semaphore than its counter says |
| QueueTheorems.RefundedOnce | src/netmush/cque_halt.c:181-212 | every entry ever set up is exactly one of live, refunded once, or dropped with its Going object |
| QueueTheorems.RunsOnceInOrder | src/netmush/cque_exec.c:431-538 | no entry runs twice, and entries run in the order they joined the run queue and the object queue, across promotion |
| QueueTheorems.MoneyConserved | src/netmush/cque.c:101-134 | if refunds are fair, every account holds what it got, less what was lost, less the deposits of its live entries |
| QueueTheorems.ConservedIffFair | src/netmush/cque_halt.c:196-201 | the accounts balance in every run if and only if every refund goes to the payer |
| QueueTheorems.UnfairBreaks | src/netmush/cque_halt.c:196-201 | three acts after which an unfair owner structure leaves the accounts unbalanced |
| QueueTheorems.ExactIffOrderly | src/netmush/cque_wait.c:463-473 | on every legal run, semaphore counters are exact after every operation if and only if every wait that blocks has what it needs for an entry and every attribute-0 notify finds no other attribute waiting; waiters then equal the positive counter |
| QueueTheorems.NothingLostIff | src/netmush/cque.c:101-134 | on every legal run, nothing is lost if and only if every set-up that pays finds a PID, fits and has no surcharge (over the quota: is free of charge) and no Going object is dropped; the queue counter then equals the live entries, and under fair refunds money and standing deposits equal what came in |
| QueueTheorems.ReachableTies | src/netmush/cque_wait.c:128-135 | in every reachable state, waiting entries due at the same time stand in the order they were last threaded, by a wait or a retiming |
| QueueConduct.CountersStayExact | src/netmush/cque_wait.c:463-473 | the same for one operation |
| QueueConduct.LossesStayOut | src/netmush/cque.c:101-134 | one operation loses nothing if and only if its set-up is thrifty |
| QueueConduct.RunHolds | src/netmush/cque_exec.c:282-545 | for exact counters, losses and ties alike: heeding the guards throughout a run is the same as reaching the aim after every operation |
| QueueSemaphores.CaseIff | src/netmush/cque.c:97-134 | how a set-up ends, by halt flag, money, quota, free PIDs and the save string |
| QueueTheorems.HaltPidKeepsLinks | src/netmush/cque_halt.c:317-351 | halting by PID keeps table and lists in agreement if and only if the entry is not in a run queue, or the call is refused |
| QueueTheorems.RetimePidKeepsLinks | src/netmush/cque_wait.c:232-294 | retiming by PID keeps table and lists in agreement if and only if the entry is not in a run queue, once waited on a semaphore, or the call is refused |
| QueueTheorems.PidBreaks | src/netmush/cque_halt.c:317-351 | a run of two acts after which halting or retiming the queued command by its PID breaks the agreement |
| QueuePids.ScanIsFirstFree | src/netmush/cque_exec.c:120-135 | the PID found is the first free one in cyclic order from the hint, and 0 exactly if all are taken |
| QueuePids.VisitsAllOnce | src/netmush/cque_exec.c:120-135 | the wrap-around scan comes to every PID exactly once |
| QueueStructure.TableIsExact | src/netmush/cque_exec.c:120-135 | what the counting invariant between table and lists means position by position |
| QueueStructure.HaltStructure | src/netmush/cque_halt.c:103-213 | halt_que keeps table, lists, shape and order |
| QueueStructure.SetupStructure | src/netmush/cque.c:89-302 | cque_setup_que keeps them, with the new entry in the table and not yet linked |
| QueueStructure.WaitStructure | src/netmush/cque_wait.c:72-154 | cque_wait_que keeps them |
| QueueStructure.NotifyStructure | src/netmush/cque_notify.c:58-149 | cque_nfy_que keeps them |
| QueueStructure.HaltOneStructure | src/netmush/cque_halt.c:285-353 | cque_do_halt_pid keeps them for waiting entries |
| QueueStructure.RetimeStructure | src/netmush/cque_wait.c:198-298 | cque_do_wait_pid keeps them for waiting entries |
| QueueStructure.SecondStructure | src/netmush/cque_exec.c:282-362 | cque_do_second keeps them |
| QueueLists.InsertSorted | src/netmush/cque_wait.c:128-135 | insertion behind every entry due no later keeps the wait queue sorted |
| QueueLists.InsertAt | src/netmush/cque_wait.c:128-135 | the insertion point is the only split with nothing later before it and nothing due by then behind it |
| QueueSemaphores.NotifyTakesOldest | src/netmush/cque_notify.c:89-136 | a positive counter releases exactly the min(count, waiters) first waiters, in order |
| QueueSemaphores.NotifyKeeps | src/netmush/cque_notify.c:58-149 | notifying keeps waiters within the counter, and keeps an exact counter exact if and only if attribute 0 finds no other attribute waiting |
| QueueSemaphores.WaitOnSemCounts | src/netmush/cque_wait.c:463-473 | a semaphore wait keeps waiters within the counter, and an exact counter exact if and only if it does not block or has the payment, quota, PID and text an entry needs |
| QueueSemaphores.HaltFalls | src/netmush/cque_halt.c:154-179 | halting takes as many off each counter as it takes waiters |
| QueueSemaphores.SecondFalls | src/netmush/cque_exec.c:320-359 | expiring takes as many off each counter as it takes waiters |
| QueueLedger.HaltBoth | src/netmush/cque_halt.c:181-212 | halt_que keeps every quota and, if refunds are fair, every account balanced |
| QueueLedger.WaitBoth | src/netmush/cque.c:89-134 | setting up keeps them, failed or not |
| QueueLedger.NotifyBoth | src/netmush/cque_notify.c:112-123 | notifying and draining keep them |
| QueueLedger.SecondBoth | src/netmush/cque_exec.c:282-362 | the once-a-second pass keeps them |
| QueueLedger.HaltOneBoth | src/netmush/cque_halt.c:317-351 | halting by PID keeps them |
| QueueHistory.HaltHistory | src/netmush/cque_halt.c:103-213 | halting returns each deposit once and leaves the order of the run queues alone |
| QueueHistory.NotifyHistory | src/netmush/cque_notify.c:89-136 | releasing threads entries in order, draining returns each deposit once |
| QueueHistory.SecondHistory | src/netmush/cque_exec.c:282-362 | promotion and expiry thread entries in order |
| QueueRuns.StepKeeps | src/netmush/cque_exec.c:522-522 | every operation a running command performs keeps all the invariants |
| QueueRuns.RunHeadPops | src/netmush/cque_exec.c:431-538 | every turn of the loop takes exactly the head off the run queue, whatever its command does |
| QueueRuns.RunHeadKeeps | src/netmush/cque_exec.c:431-538 | running the head, whatever its command does to the queue, keeps all the invariants |
| QueueRuns.SecondKeeps | src/netmush/cque_exec.c:282-362 | so does the once-a-second pass |
| QueueRuns.RunKeeps | src/netmush/cque_exec.c:282-545 | so does every legal run from the empty queue |
| QueueSchedule.SecondReleases | src/netmush/cque_exec.c:296-359 | the run queue gets the object queue, then the due entries in time order, then the expired ones; object-caused ones start the next object queue; nothing left is due |
| QueueAside.NotReleasedEarly | src/netmush/cque_exec.c:312-318 | an act makes a waiting entry runnable if and only if it is a pass no earlier than the entry's wait time; otherwise the entry waits on or its deposit was returned, whatever running commands did |
| QueueSchedule.NeverOversleeps | src/netmush/cque_exec.c:179-235 | a sleep of two seconds or more ends before anything is due, if and only if no expired wait wraps around |
| QueueSchedule.HeadDecides | src/netmush/cque_exec.c:196-210 | in a sorted wait queue the full scan says what the head alone says |
| QueueSchedule.OversleepExample | src/netmush/cque_exec.c:212-232 | at any clock: a run after which an entry already due makes the server wait one second, and 999 a second later |
| QueueLaws.HaltReaches | src/netmush/cque_halt.c:49-54 | halt_que takes off the wait and semaphore queues exactly the entries whose object is valid and is, or is owned by, the one named, leaves them as tombstones in the run queues, and returns exactly their deposits; their number is what it returns |
| QueueLaws.HaltPidIs | src/netmush/cque_halt.c:317-351 | halting by PID marks the entry in a run queue, takes it off the queue it waits in, counts its semaphore down and returns its deposit |
| QueueLaws.EntryMade | src/netmush/cque.c:128-235 | a set-up that succeeds makes an entry with the first free PID behind the last one given, and nothing else moves |
| QueueLaws.OverQuotaHalts | src/netmush/cque.c:118-125 | one over the quota halts the object and leaves the owner no live entry and a cleared counter |
| QueueLaws.WaitEnrolls | src/netmush/cque_wait.c:88-136 | a command that waits w seconds joins the wait queue due at now + w, clamped to an int; one that does not wait joins the run queue its cause selects |
| QueueLaws.SemEnrolls | src/netmush/cque_wait.c:88-152 | one that waits on a semaphore joins the semaphore queue behind the others, with its timeout as a time, or 0 |
| QueueLaws.SemWaitIs | src/netmush/cque_wait.c:463-473 | the counter goes up by one; where notifies ran ahead the command runs at once |
| QueueLaws.MoneyMoves | src/netmush/predicates.c:347-411 | who pays and is paid, from whose money, and when it does not suffice |
| QueueLaws.CostIs | src/netmush/cque.c:101-112 | the cost is the deposit, and one coin more if there is a deposit and the surcharge hits |
| QueueLaws.Surroundings | src/netmush/cque_exec.c:442-451 | the halt and going marks the queue reads are set and cleared one object at a time |
| QueueLaws.NotifyIs | src/netmush/cque_notify.c:58-149 | which entries a notify lets go, how many, and whether they run or are refunded |
| QueueLaws.RetimedTo | src/netmush/cque_wait.c:255-279 | the time a retiming comes to, for each way of asking |
| QueueLaws.RetimeIs | src/netmush/cque_wait.c:232-294 | only the entry with the PID changes, and only its time; untimed semaphore waits do not |
| QueueLaws.SecondIs | src/netmush/cque_exec.c:282-362 | what the pass moves and what it leaves, by the entries' own times |
| QueueLaws.HeadFate | src/netmush/cque_exec.c:442-522 | when the head of the run queue is refunded, lost or run |
| QueueLaws.TopPops | src/netmush/cque_exec.c:415-545 | the loop takes an entry off for every turn, and stops early only at an empty queue |
| QueueLaws.NextIs | src/netmush/cque_exec.c:179-235 | the sleep is 0, 1, or one second less than the time left to the first timed entry, at most 999 |
| QueueDue.RunsWhenDue | src/netmush/cque_wait.c:88-136 | a command told to wait w seconds is not made runnable before now + w by any run that does not retime it, and the first pass at or after it makes it runnable unless it was halted |
| EntryLists.EntryList.Append | src/netmush/cque_entry.c:184-193 | a record is linked behind the last, and head, tail and links stay right |
| EntryLists.EntryList.Unlink | src/netmush/cque_halt.c:138-145 | a record is taken out behind its trail pointer, and head, tail and links stay right |
| EntryLists.EntryList.InsertAt | src/netmush/cque_wait.c:134-135 | a record is linked in behind a given one |
| EntryLists.EntryList.Splice | src/netmush/cque_exec.c:297-310 | one list moves to the end of another |
| EntryLists.EntryList.FindLater | src/netmush/cque_wait.c:128-132 | the walk stops behind the last entry due no later |
| EntryLists.EntryList.FindRecord | src/netmush/cque_entry.c:216-221 | the walk stops at the record searched |
| EntryLists.EntryList.HaltWanted | src/netmush/cque_halt.c:117-131 | exactly the wanted entries of a run queue become tombstones, counted and tallied by owner |
| EntryLists.HaltRecord | src/netmush/cque_halt.c:71-78 | the tally of a global halt counts one more entry of its owner |
| CommandQueue.CommandQueue.AQueueCount | src/netmush/player_c.c:195-209 | a good owner's counter moves and is returned |
| CommandQueue.CommandQueue.SQueueCount | src/netmush/player_c.c:211-220 | a good owner's counter is cleared |
| CommandQueue.CommandQueue.PayforWho | src/netmush/predicates.c:347-370 | the payer is charged unless exempt, if it can pay |
| CommandQueue.CommandQueue.GivetoWho | src/netmush/predicates.c:402-411 | the owner is credited unless exempt |
| CommandQueue.CommandQueue.AddTo | src/netmush/cque_entry.c:116-145 | the counter moves and is returned |
| CommandQueue.CommandQueue.DeleteQentry | src/netmush/cque_entry.c:40-97 | the record leaves the PID table |
| CommandQueue.CommandQueue.GiveQue | src/netmush/cque_entry.c:165-194 | the record goes, untimed, to the end of the queue its cause selects |
| CommandQueue.CommandQueue.RemoveWaitq | src/netmush/cque_entry.c:214-227 | exactly this record leaves the wait queue |
| CommandQueue.CommandQueue.HaltQueue | src/netmush/cque_halt.c:103-213 | halt_que, on the linked records, does what the abstract halt does, and returns how many entries it reached |
| CommandQueue.CommandQueue.HaltWaitQueue | src/netmush/cque_halt.c:133-152 | its wait-queue walk unlinks and deletes exactly the wanted entries |
| CommandQueue.CommandQueue.HaltSemQueue | src/netmush/cque_halt.c:154-179 | its semaphore walk also moves the tail and uncounts them |
| CommandQueue.CommandQueue.CreditEach | src/netmush/cque_halt.c:181-194 | every owner with halted entries gets its deposits and a cleared counter |
| CommandQueue.CommandQueue.QpidNext | src/netmush/cque_exec.c:120-135 | the scan and the hint it leaves |
| CommandQueue.CommandQueue.Charge | src/netmush/cque.c:101-118 | the cost, the payment and the quota counter |
| CommandQueue.CommandQueue.SetupQue | src/netmush/cque.c:89-302 | cque_setup_que does what the abstract set-up does, on every way it can end |
| CommandQueue.CommandQueue.ThreadWait | src/netmush/cque_wait.c:128-135 | the record goes behind every entry due no later |
| CommandQueue.CommandQueue.WaitQueue | src/netmush/cque_wait.c:72-154 | cque_wait_que does what the abstract wait does |
| CommandQueue.CommandQueue.WaitSem | src/netmush/cque_wait.c:463-473 | the semaphore branch of cque_do_wait does what the abstract one does |
| CommandQueue.CommandQueue.NotifyWalk | src/netmush/cque_notify.c:89-136 | the walk releases or drains exactly the first matching entries |
| CommandQueue.CommandQueue.NotifyQueue | src/netmush/cque_notify.c:58-149 | cque_nfy_que does what the abstract notify does, and returns min(count, waiters), or a counter that is not positive |
| CommandQueue.CommandQueue.HaltPidEntry | src/netmush/cque_halt.c:285-353 | cque_do_halt_pid, for waiting entries, does what the abstract one does |
| CommandQueue.CommandQueue.AdjustTime | src/netmush/cque_wait.c:255-279 | the sum of the base and the value, at most INT_MAX; before the epoch, now or INT_MAX; always a time |
| CommandQueue.CommandQueue.WaitPid | src/netmush/cque_wait.c:198-298 | cque_do_wait_pid, for waiting entries, does what the abstract one does |
| CommandQueue.CommandQueue.PromoteObjects | src/netmush/cque_exec.c:296-310 | the object queue goes to the end of the run queue |
| CommandQueue.CommandQueue.GiveDue | src/netmush/cque_exec.c:312-318 | the due entries, and no others, are given to the run queues |
| CommandQueue.CommandQueue.ExpireDue | src/netmush/cque_exec.c:320-359 | the expired entries are uncounted and given to the run queues |
| CommandQueue.CommandQueue.DoSecond | src/netmush/cque_exec.c:282-362 | cque_do_second does what the abstract pass does |
| CommandQueue.CommandQueue.NextDue | src/netmush/cque_exec.c:179-235 | cque_que_next returns what the abstract scan does |
| CommandQueue.CommandQueue.LaunchHead | src/netmush/cque_exec.c:442-451 | the head is refunded, uncounted and made a tombstone, or dropped |
| CommandQueue.CommandQueue.PopHead | src/netmush/cque_exec.c:526-537 | the head is unlinked and deleted |
| CommandQueue.CommandQueue.DoTop | src/netmush/cque_exec.c:415-545 | cque_do_top runs commands as the abstract loop does, returns how many entries it took off, and stops early only at an empty queue |
| CommandQueue.CommandQueue.Serve | src/netmush/cque_exec.c:282-545 | a whole legal run, on the linked records, ends in the state the theorems speak about |
| Packing.AddUp | src/netmush/cque.c:136-202 | the first pass finds the length of the save string, or that it is no int |
| Packing.Block.Strcpy | src/netmush/cque.c:243-258 | a string is copied behind the others, its padding touching none of them |
| Packing.Block.Memcpy | src/netmush/cque.c:260-289 | a register and its zero are copied behind the others |
| Packing.CopyPieces | src/netmush/cque.c:243-289 | the second pass fills the block exactly, and every pointer leads to its string |
| Packing.SaveText | src/netmush/cque.c:136-289 | both passes together, with the limit on arguments |
| Sgr.AppendAttribute | src/netmush/ansi.c:737-750 | a code is appended with its separator, unless the guard on space keeps it out |
| Sgr.AppendColor | src/netmush/ansi.c:762-822 | a colour is appended as 38;5;n or 48;5;n, brightened if highlighted, or reset |
| Sgr.ToEscape | src/netmush/ansi.c:837-889 | the whole sequence; no guard keeps a code out |
| Sgr.TransitionText | src/netmush/ansi.c:900-947 | the text of the abstract transition, within the small buffer |
| Sgr.StatesToSequence | src/netmush/ansi.c:2951-3003 | all transitions and the final reset, if they fit the buffer |
| Sgr.ParseAnsiCode | src/netmush/ansi.c:1424-1615 | the token loop does what the abstract parser does to the numbers |
| Sgr.ParseExtended | src/netmush/ansi.c:1514-1609 | what follows a 38 or 48, with tokens missing or not |
| Sgr.ParseAndApply | src/netmush/ansi.c:2608-2642 | a terminated sequence is applied and passed over, anything else left alone |
| Sgr.StripAnsi | src/netmush/ansi.c:2800-2832 | exactly the visible characters |
| Sgr.StripAnsiLen | src/netmush/ansi.c:2837-2865 | how many there are |
| Sgr.MapStates | src/netmush/ansi.c:2880-2936 | the visible characters, the state before each, and the last state |
| SgrTheorems.ParametersRead | src/netmush/ansi.c:1434-1440 | parameters written out are read back as the same numbers |
| SgrTheorems.SgrCodes | src/netmush/ansi.c:837-889 | what the parser holds after reading the parameters of a state |
| SgrTheorems.TransitionRead | src/netmush/ansi.c:900-947 | a transition takes a parser that mirrors its origin to one that mirrors its target |
| SgrTheorems.SequenceRead | src/netmush/ansi.c:2951-3003 | after each transition the parser mirrors the state, and it ends looking normal |
| SgrTheorems.PaintedRead | src/netmush/ansi.c:2880-2936 | a painted text reads back, each character looking as painted if and only if its colours are faithful |
| SgrTheorems.ScanAppend | src/netmush/ansi.c:2800-2865 | what a complete text leaves behind does not depend on what follows |
| SgrTheorems.StateIsFold | src/netmush/ansi.c:2902-2916 | the recorded state is the fold of the sequences before the character |
| SgrTheorems.UnfaithfulExample | src/netmush/ansi.c:802-804 | the highlighted true colour (0, 0, 192), as the parser makes it, is written as palette entry 19 and read back as 12 |
| SgrForms.ShortForms | src/netmush/ansi.c:1469-1512 | 30 to 37 and 90 to 97 read as palette forms of the foreground, 40 to 47 and 100 to 107 of the background |
| SgrForms.PaletteForm | src/netmush/ansi.c:1514-1609 | 38;5;i and 48;5;i set that ground to entry i of the table and leave everything else |
| SgrForms.TrueForm | src/netmush/ansi.c:1514-1609 | 38;2;r;g;b and 48;2;r;g;b set that ground to red, green and blue in this order |
| SgrForms.TrueShort | src/netmush/ansi.c:1514-1609 | missing components are zero |
| SgrForms.SetForms | src/netmush/ansi.c:1444-1456 | 1, 4, 5 and 7 set one attribute each |
| SgrForms.UnsetForms | src/netmush/ansi.c:1457-1468 | 22, 24, 25 and 27 unset one attribute each |
| SgrForms.ResetForms | src/netmush/ansi.c:1441-1443 | 0 resets everything, 39 and 49 one ground |
| SgrForms.UnknownIgnored | src/netmush/ansi.c:1439-1612 | any other parameter does nothing |
| SgrForms.CutShort | src/netmush/ansi.c:1514-1609 | a 38 or 48 without what it needs does nothing |
| SgrForms.EmptySkipped | src/netmush/ansi.c:1434-1438 | empty parameters are none |
| SgrForms.PlainVisible | src/netmush/ansi.c:2800-2832 | a text without a terminated sequence is all visible and changes nothing |
| SgrForms.SequenceIs | src/netmush/ansi.c:2608-2642 | a terminated sequence goes from ESC and bracket to the first m |
| SgrForms.ResetIff | src/netmush/ansi.c:900-947 | a transition starts with a reset if and only if the origin shows something the target does not, or the target asks for it; equal states need nothing |
| Locks.LockParser.SkipWhitespace | src/netmush/string_util.c:818-825 | exactly the leading whitespace goes |
| Locks.LockParser.TestAtr | src/netmush/boolexp_parse.c:103-169 | an attribute by name or number, with its separator and value |
| Locks.LockParser.ParseLeaf | src/netmush/boolexp_parse.c:189-318 | the abstract leaf, the depth counter unchanged |
| Locks.LockParser.ParseFactor | src/netmush/boolexp_parse.c:339-437 | the abstract factor, the depth counter restored on every path |
| Locks.LockParser.ParseTerm | src/netmush/boolexp_parse.c:454-500 | the abstract term, likewise |
| Locks.LockParser.ParseExpression | src/netmush/boolexp_parse.c:517-563 | the abstract expression, likewise |
| Locks.ParseLock | src/netmush/boolexp_parse.c:590-655 | boolexp_parse, parsing internally |
| LockTheorems.NormText | src/netmush/unparse.c:74-104 | the text does not tell how chains of & and | are nested |
| LockTheorems.WriteRead | src/netmush/unparse.c:56-208 | a written lock reads back nested to the right if its nesting fits the limit, and as nothing if not |
| LockTheorems.SurvivesIff | src/netmush/boolexp_parse.c:339-563 | a lock reads back as itself if and only if it is nested to the right and fits the limit |
| LockTheorems.AttrSurvivesIff | src/netmush/boolexp_parse.c:103-169 | an attribute leaf reads back as itself if and only if its name leads back to it and neither name nor value holds a character of the grammar |
| LockTheorems.ParsedWellFormed | src/netmush/boolexp_parse.c:339-563 | every tree the parser returns has operands of the right kind, whatever the attribute table; it can be printed and read back if and only if the names of its attributes can |
| LockTheorems.StarredLost | src/netmush/nametabs.c:1233-1236 | a name that starts with an asterisk never leads back to its attribute, and a lock on it is written as a text that is no lock |
| LockTheorems.PasswordLost | src/netmush/nametabs.c:1234-1234 | for instance 5:foo, which is read as a lock and written as one that is not |
| Locks.LockKeeper.CheckAttrLock | src/netmush/boolexp.c:91-135 | the player's attribute, or one of an object carried |
| Locks.LockKeeper.EvalLock | src/netmush/boolexp.c:153-370 | the abstract evaluation of any tree with operands of the right kind; it ends, and the nesting counter is restored on every path |
| Locks.LockKeeper.EvalText | src/netmush/boolexp.c:386-398 | a text that is no lock lets everyone pass |
| LockMeaning.NormPasses | src/netmush/boolexp.c:160-169 | nesting chains to the right does not change who passes |
| LockMeaning.RewritingKeeps | src/netmush/boolexp.c:386-398 | reading, writing and reading a lock again does not change who passes, if the names in it can be read back |
| LockMeaning.StarredOpens | src/netmush/boolexp.c:386-398 | a lock on an attribute with an asterisk lets everyone pass once it is written |
| LockMeaning.LimitIrrelevant | src/netmush/boolexp.c:179-198 | a higher nesting limit changes nothing for a lock that does not reach it |
| LockMeaning.LiarAlternates | src/netmush/boolexp.c:171-238 | a lock that refers to itself through a negation passes by the parity of the levels left |
| LockLaws.ReferencePasses | src/netmush/boolexp.c:240-241 | a reference is passed by the object itself and by whoever carries it |
| LockLaws.AttributePasses | src/netmush/boolexp.c:91-135 | an attribute is passed by whoever has a matching one or carries an object that has |
| LockLaws.OwnerPasses | src/netmush/boolexp.c:153-370 | an owner lock opens to exactly the players with the object's owner |
| LockLaws.EvaluationPasses | src/netmush/boolexp.c:153-370 | an evaluation lock on a missing attribute lets nobody pass, otherwise the softcode decides |
| LockLaws.HandedLeaf | src/netmush/boolexp.c:153-370 | carrying one more object opens exactly the leaves that object opens |
| LockLaws.HandedOpens | src/netmush/boolexp.c:153-370 | it never shuts a lock built of leaves, & and | |
| LockLaws.ReferencedPasses | src/netmush/boolexp.c:171-238 | below the nesting limit a reference lets through whom the other lock does |
| LockLaws.BlankFront | src/netmush/boolexp_parse.c:189-563 | blanks may stand in front of any part of a lock |
| LockLaws.BlankBehindLeaf | src/netmush/boolexp_parse.c:222-235 | and behind a leaf |
| LockLaws.BlankBefore | src/netmush/boolexp_parse.c:454-563 | and in front of &, | and a closing parenthesis |
| LockLaws.BlankLock | src/netmush/boolexp_parse.c:590-655 | blanks in front of a lock do not matter |
| LockLaws.NothingSkipped | src/netmush/string_util.c:818-825 | nothing but blanks is skipped |
| LockLaws.LongCut | src/netmush/boolexp_parse.c:632-650 | what does not fit the buffer is not read |
| LockLaws.NoLockPasses | src/netmush/boolexp.c:386-398 | an object without a lock is open |
| LockLaws.NumberCut | src/netmush/boolexp_parse.c:247-248 | a number stops at the ends of a long and keeps its low 32 bits |
| CText.AtoiSigned | src/netmush/ansi.c:1438-1439 | a number with or without a sign, and anything behind |
| CText.AtoiNone | src/netmush/ansi.c:1438-1439 | a text that starts with none is 0 |
| LockLaws.RestIgnored | src/netmush/boolexp_parse.c:590-655 | what follows a complete lock and a closing parenthesis is not read |
| LockLaws.NumberReadAs | src/netmush/boolexp_parse.c:240-262 | a reference by number is to the object the number is cut to, if there is one |
| Alloc.Allocator.XMalloc | src/netmush/alloc.c:130-167 | a zeroed block with its guard heads the list, and nothing else changes |
| Alloc.Allocator.XCalloc | src/netmush/alloc.c:191-208 | the same, unless the product overflows |
| Alloc.Allocator.XRealloc | src/netmush/alloc.c:236-281 | a new block with the old bytes that fit and zeros behind takes the old one's place |
| Alloc.Allocator.XFind | src/netmush/alloc.c:296-315 | the one block that holds the address, or none |
| Alloc.Allocator.XCheck | src/netmush/alloc.c:324-347 | 1 for an address in a block whose guard is intact, 0 where it is not, and 2 for all others; with all guards intact never 0 |
| Alloc.Allocator.XFree | src/netmush/alloc.c:363-403 | exactly the block that holds the address is unlinked, and an overrun reported if and only if its guard was broken |
| Alloc.Allocator.XStrcat | src/netmush/alloc.c:817-838 | what fits before the guard is appended |
| Alloc.Allocator.XStrncat | src/netmush/alloc.c:852-877 | what fits, and no more than n |
| Alloc.Allocator.XStrccat | src/netmush/alloc.c:889-909 | one character, if it and a zero fit |
| Alloc.Allocator.XStrnccat | src/netmush/alloc.c:923-946 | the same, within a length of n |
| Alloc.Allocator.XStrcpy | src/netmush/alloc.c:958-979 | the string reads back cut to the room left, and the rest is zero |
| Alloc.Allocator.XStrncpy | src/netmush/alloc.c:993-1022 | at most n bytes, padded; the whole string if it fits |
| Alloc.Allocator.XMemmove | src/netmush/alloc.c:1037-1062 | the bytes that fit, as they were before |
| Alloc.Allocator.XMempcpy | src/netmush/alloc.c:1080-1105 | the same, and the address behind them |
| Alloc.Allocator.XMemset | src/netmush/alloc.c:1167-1187 | exactly the bytes that fit are set |
| Alloc.Allocator.TotalRawMemory | src/netmush/alloc.c:1378-1389 | the sum of the live sizes |
| Alloc.Allocator.Run | src/netmush/alloc.c:130-1187 | after any sequence of allocations, reallocations, frees and writes blocks lie apart, every guard is intact, and the blocks are those the operations make |
| AllocSpec.StringEnds | src/netmush/alloc.c:817-1062 | every string in a block ends at or before its guard |
| AllocSpec.PutKeeps | src/netmush/alloc.c:852-877 | a write inside a block, and a zero on its guard's first byte, breaks no guard and reaches no other block |
| AllocSpec.TotalAt | src/netmush/alloc.c:1378-1389 | the sum falls by exactly the size of a block taken out |
| Telnet.Descriptor.InputProcess | src/netmush/bsd_io.c:248-480 | one pass does to commands, line and answers what the three passes do |
| Telnet.Descriptor.InputAll | src/netmush/bsd_io.c:248-480 | so do all reads of a connection |
| Telnet.Descriptor.Answer | src/netmush/bsd_io.c:342-393 | an answer repeats the option asked about and takes it up or turns it down; WONT and DONT get none |
| TelnetSpec.RepliesEnd | src/netmush/bsd_io.c:342-393 | two ends that answer so do not go on answering each other |
| Telnet.Descriptor.Type | src/netmush/bsd_io.c:409-458 | line ends, the table, editing and the cap, byte by byte |
| TelnetSpec.CutIff | src/netmush/bsd_io.c:294-405 | the same commands and line come of a stream cut behind a byte string, whatever was typed before and follows, if and only if it ends in a complete unit |
| TelnetSpec.TwoReads | src/netmush/bsd_io.c:283-471 | two reads do what one would, even cut between CR and LF |
| TelnetSpec.CutsDoNotMatter | src/netmush/bsd_io.c:283-471 | however a stream is cut, if no command is cut, the same commands come of it |
| TelnetSpec.ProcessKeeps | src/netmush/bsd_io.c:409-458 | commands are non-empty, bounded, made of allowed bytes, and only added to |
| TelnetSpec.BackspaceIgnored | src/netmush/bsd_io.c:177-195 | a backspace changes nothing |
| TelnetTyping.TextTyped | src/netmush/bsd_io.c:449-458 | allowed text is added to the line as far as it fits |
| TelnetTyping.DelsUndo | src/netmush/bsd_io.c:436-446 | k DELs take back the last k bytes typed |
| TelnetTyping.DelsEmpty | src/netmush/bsd_io.c:436-446 | more DELs than bytes leave an empty line and every command as it is |
| TelnetTyping.LineEntered | src/netmush/bsd_io.c:409-428 | CR, LF or CR LF enters the line as one command, or nothing if it is empty |
| TelnetTyping.ByteIgnored | src/netmush/bsd_io.c:177-195 | every other byte leaves no trace |
| TelnetTyping.CommandIgnored | src/netmush/bsd_io.c:294-405 | nor does a command of two or three bytes |
| TelnetTyping.AnswersAppend | src/netmush/bsd_io.c:342-405 | two reads are answered like one |
| TelnetTyping.AnswersTo | src/netmush/bsd_io.c:342-446 | a DEL is echoed, other bytes are not, and only negotiations are answered |
| TelnetTyping.TakenUp | src/netmush/bsd_io.c:342-393 | line mode asked for and echo offered are taken up, two announced options are not answered, all others are turned down |

## Left out

- CommandQueue.CommandQueue.HaltPidEntry: for entries of the wait and semaphore queues; on a run-queue entry the program frees a record that stays linked, which `HaltPidKeepsLinks` and `PidBreaks` state on the abstract state only.
- CommandQueue.CommandQueue.WaitPid: likewise; a run-queue entry would be linked into two lists, which `RetimePidKeepsLinks` states on the abstract state only.
- CommandQueue.CommandQueue.DoTop: commands that run `cque_do_top` again, change owners, types or semaphore attributes by other means, or change the PID limit; process registers.
- CommandQueue.CommandQueue.AddTo: counters are unbounded; attributes that are not numbers, and overflow of an int, are not modelled.
- CommandQueue.CommandQueue.AQueueCount: counters are unbounded.
- Packing.SaveText: the block is an array of its own, and the strings are values, so sources inside it are not modelled.
- Packing.Block.Strcpy: likewise.
- Sgr.StatesToSequence: what a sequence longer than the buffer becomes is only bounded in length.
- Sgr.TransitionText: compares states by value; padding bytes of the C structures, which could cost a redundant sequence, are not modelled. `no_default_bg` is false.
- Sgr.ParseAnsiCode: `atoi` on numbers beyond an int, and palette indices beyond 255, are undefined in C and arbitrary here; the search for the nearest colour is a parameter.
- Sgr.MapStates: requires every ESC to start a terminated sequence; on any other the program does not come back.
- Locks.ParseLock: internal parsing only; names matched for players, and the standalone reader, are not modelled.
- LockTheorems.WriteRead: texts that fit the large buffer.
- Locks.LockKeeper.EvalLock: softcode in evaluation locks is a parameter and changes nothing; contents lists are finite.
- Alloc.Allocator.XMalloc: the system finds room; untracked allocation is not modelled.
- Alloc.Allocator.XRealloc: of a live block's start to a positive size; the other cases are `XMalloc` and `XFree`.
- Alloc.Allocator.XStrcpy: into tracked blocks, from strings that do not overlap what is written; so with the other writers.
- Telnet.Descriptor.InputProcess: byte counts, and commands cut between two reads beyond what one read makes of them; subnegotiation is read as the program reads it, as data.
- Sixteen-colour and true-colour writing, colour names and mush codes: not modelled.
- Freeing of lock trees, the printf family, `__xstpcpy`, `__xmemccpy` and the safe string functions: not modelled.
- Reports, logs, messages to players, name matching and permission checks: not modelled.
