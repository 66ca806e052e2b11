# blackboardx, modelled and proved in Dafny

`blackboardx` keeps a shared board: one totally ordered log of writes to
declared regions, levels that are appended to and premises that are set under
the version they replace. Any number of processes hold a `Control` over one
store; each sequences writes, decides which agents are to hear of them, batches
what it tells an agent behind a window, and closes the run on silence or on a
wall clock limit. Nothing takes a lock across processes: every process reads
and writes the same record, and what it caches of it may only be behind.

The project states what a board's record is as functions of one log
(`Records.dfy`), and builds on that in layers.

| file | what it holds |
|---|---|
| `Records.dfy` | the record: log, run, agents' cursors, outbox, and every store operation on it |
| `MemoryStore.dfy`, `SqlStores.dfy` | the in-memory store as a class with its indexes, and the three database adapters' numbering and deduplication, all doing to the record what `Records` says |
| `Histories.dfy` | any sequence of operations: the four stores answer alike, no update is lost, a repeated write is answered alike |
| `Clock.dfy` | the manual clock as a class, and what one `advance` does and leaves |
| `Controls.dfy` | the control component's locked blocks, as functions of the state each finds |
| `ControlObject.dfy` | the control component as a class whose methods change fields, store and clock step by step, each proved to do what its block does |
| `Cursors.dfy`, `Protocol.dfy`, `Guarantees.dfy` | any number of Controls over one record, any interleaving, a crash at any step: the invariant, and the promises that follow |
| `Relays.dfy` | what a relay's pass clears, when it gives a row up, and what a resent notification names |
| `Sessions.dfy`, `Windows.dfy`, `Silence.dfy`, `PendingSets.dfy` | one Control's life: armed windows, deadlines, settling, and pending sets against a scan of the record |
| `Effects.dfy` | what a caller meets: who is sent what and when, what a write answers, whom a closing names, told by fields |
| `Deliveries.dfy`, `Closings.dfy` | draining a queue as steps of the protocol, and what every run records of its end |
| `Lane.dfy` | the delivery lane: queue, worker, retry policy |
| `Client.dfy`, `Wire.dfy`, `Tools.dfy` | retried writes and paging, paths and answers, cut reads |

A locked block of the source is one step. What the source does outside its lock
is steps of its own: the two halves of an acknowledgment, a delivery started,
ended and marked, the predicate asked between an idle deadline and its verdict,
each read and each send of a relay's pass, a sweep's
reads and its closing. The admission rule's verdict, the
termination predicate's answer, which sends return and what the network does
are parameters, quantified over. Time is an integer count of the clock's
smallest unit. Where Dafny would look for an induction of its own a lemma says
`{:induction false}`, so every proof by induction is written out.

## Where the code and what is said of it differ

The code is followed; each difference is stated exactly.

- **A row can be given up unsent.** A relay decides that a row is moot from the
  first `_TAIL` writes of the board and the regions its own Control was given
  (`src/blackboard/_control.py:1287`, `:1299`). `Relays.RowsGivenUpIff` says when
  that loses one: for any board, some life leaves an agent owed the n-th write
  with its row gone, nothing sent and nothing answered, if and only if n is past
  `_TAIL` or the write's region is one a relaying Control was not given.
  `Relays.RelayLosesARow` is the life, for each such case. Within both bounds no
  row is lost, however long the board grows, but one its own agent registers away
  (`Guarantees.GivenUpIsOutOfSight`, `Guarantees.WriteReachesEveryHearer`).
- **A relay to several held agents may name what one has answered.** The source
  says a resent notification names exactly what a first one would have named
  (`src/blackboard/_control.py:1247-1250`). It reads from the least advanced
  of them. `Relays.ResentNamesAnswered` is a life in which an agent told of one
  region is then told of another it has answered; `Relays.ResentNamesIff` says
  what a resent notification names and when that is what the source says.
- **A notification's range may be empty.** A window closing dispatches without
  the check made before a dispatch (`src/blackboard/_control.py:1718-1719`,
  against `:1571`). `Windows.EmptyRangeIsIssued` reaches it and
  `Windows.WindowRangeIff` says exactly when.
- **A Control may settle a run another process has just touched.** Every
  process pushes the recorded idle deadline out (`docs/concepts/service.md:75`),
  but a Control settles on its own timer
  (`src/blackboard/_control.py:1780-1804`). Over every life, whatever other
  processes and the two clocks do, a settling comes before the recorded deadline
  if and only if what moved that deadline last, in any process, is less than its
  idle limit back on the record's clock (`Silence.SettlesEarlyIff`).
  `Silence.SettlesBeforeDeadline` is a life in which it does, and alone on its
  record with clocks in step a Control never does
  (`Silence.AloneSettlesOnDeadline`).
- **Calls fire in due order only if callbacks arm no call in the past.**
  `Clocks.OutOfOrderExample`, and `Clocks.FiresInOrderIffPunctual` for exactly
  when they do.
- **A cut read keeps the first prefix tried that fits, not the largest.**
  `Tools.LargestIff`: it is the largest, whatever the entries take, exactly for
  reads of at most four entries.
- **What is pending may lack what changed since the agent was last told.** The
  write path adds to the pending set (`src/blackboard/_control.py:1471-1493`) and
  an evaluation drops it where everything sequenced is answered (`:1571-1575`). An
  agent the record was told of that registers again is behind that telling here,
  may answer it, and then loses what is pending: `PendingSets.DroppedByAPoll` is
  such a life. `PendingSets.PendingSinceToldIff` says over every life when pending
  still has all that changed since the last telling, `PendingSets.EvaluateDropsIff`
  which evaluations drop some of it, and `PendingSets.PendingIsAScan` what it has
  in every case.

## Model

| member | source | states |
|---|---|---|
| Records.AppendKeepsOneLog | src/blackboard/_board.py:363-403 | an append keeps every entry in a declared region, one entry a key, and every outbox row at a write of the log |
| Records.SetKeepsOneLog | src/blackboard/_board.py:405-453 | a set does too, and the version it stores is the number of that premise's writes |
| Records.DeclareKeepsOneLog | src/blackboard/_board.py:345-361 | declaring a region disturbs neither log nor versions |
| Records.PremiseVersion | src/blackboard/_board.py:469-478 | a premise has a value exactly when it has been written, and reads at the number of its writes |
| MemoryStores.InMemoryStore.constructor | src/blackboard/_board.py:263-278 | a new board's indexes agree with an empty log |
| MemoryStores.InMemoryStore.Declare | src/blackboard/_board.py:345-361 | declares a region once, or refuses a name already taken |
| MemoryStores.InMemoryStore.AlreadyWritten | src/blackboard/_board.py:303-320 | the key index recalls what a scan of the log for the key would: nothing, the same write marked repeated, or a key of another region |
| MemoryStores.InMemoryStore.Append | src/blackboard/_board.py:363-403 | level list, change log, counter, keys and outbox move together to the log with one entry more, or nothing moves |
| MemoryStores.InMemoryStore.Set | src/blackboard/_board.py:405-453 | the same for a premise under its expected version; a conflict, a repeat or a refusal stores nothing |
| MemoryStores.InMemoryStore.Sequence | src/blackboard/_board.py:376-403 | one entry numbered next, indexed and owed to each hearer |
| MemoryStores.InMemoryStore.Enqueue | src/blackboard/_board.py:574-579 | adds exactly the rows of one write |
| MemoryStores.InMemoryStore.ReadLevel | src/blackboard/_board.py:455-467 | the level list from a bound is the log filtered to that level |
| MemoryStores.InMemoryStore.ReadPremise | src/blackboard/_board.py:469-478 | the stored state is the premise's last write |
| MemoryStores.InMemoryStore.ReadBoard | src/blackboard/_board.py:480-487 | every write from a bound, in order |
| MemoryStores.InMemoryStore.Delete | src/blackboard/_board.py:489-504 | leaves a blank board and counts what went |
| MemoryStores.InMemoryStore.OpenRun | src/blackboard/_board.py:506-513 | the run is open, and past any span on the store's clock it expires by the wall clock limit exactly from the one given on, and settles exactly from the other |
| MemoryStores.InMemoryStore.TouchRun | src/blackboard/_board.py:530-536 | an open run settles exactly one idle limit from now on, its wall clock limit where it was; any other is left alone |
| MemoryStores.InMemoryStore.CloseRun | src/blackboard/_board.py:538-560 | true to the caller that closes the run, which clears agents and outbox; false and no change otherwise |
| MemoryStores.InMemoryStore.MarkSent | src/blackboard/_board.py:593-603 | removes exactly the agent's rows up to a sequence |
| MemoryStores.InMemoryStore.Unsent | src/blackboard/_board.py:581-591 | the earliest rows, each once, in order of sequence |
| MemoryStores.InMemoryStore.DeclareAgent | src/blackboard/_board.py:622-636 | replaces one declaration, moving no other agent, and leaves the same agents unfinished |
| MemoryStores.InMemoryStore.MarkNotified | src/blackboard/_board.py:638-642 | the told cursor rises, no other moves, and every identifier up to it is one the store lets the agent answer |
| MemoryStores.InMemoryStore.Acknowledge | src/blackboard/_board.py:644-658 | refused past what the agent was told, changing nothing; otherwise only its answered cursor rises, and the same answer again changes nothing |
| SqliteStores.SqliteStore.Append | src/blackboard/_sqlite.py:311-334 | the greatest number plus one, keys found by a scan: the record and answer of the in-memory store |
| SqliteStores.SqliteStore.Set | src/blackboard/_sqlite.py:336-380 | the same for a premise row under its version |
| SqliteStores.SqliteStore.ReadLevel | src/blackboard/_sqlite.py:382-405 | selecting a level's rows in order is reading the level |
| SqliteStores.SqliteStore.ReadBoard | src/blackboard/_sqlite.py:426-445 | selecting every row in order is reading the board |
| Tables.AlreadyWritten | src/blackboard/_sqlite.py:293-309 | the row under a key recalls what the log does |
| Tables.MaxSequence | src/blackboard/_sqlite.py:687-695 | the greatest number stored is the length of the log |
| PostgresStores.PostgresStore.TakeSequence | src/blackboard/_postgres.py:732-744 | the number taken is one more than the writes there are, and nothing is left to take where nothing was declared |
| PostgresStores.PostgresStore.Append | src/blackboard/_postgres.py:324-350 | a key looked up before the counter is taken, so a repeat takes no number: the record and answer of the in-memory store |
| PostgresStores.PostgresStore.Set | src/blackboard/_postgres.py:352-414 | the counter taken before the version is checked, and given back on a conflict: the record and answer of the in-memory store |
| MongoStores.MongoStore.TakeSequence | src/blackboard/_mongodb.py:766-779 | the same of the counter document |
| MongoStores.MongoStore.Append | src/blackboard/_mongodb.py:267-298 | a session that counts and inserts, or does neither |
| MongoStores.MongoStore.Set | src/blackboard/_mongodb.py:300-367 | the version guard taken before the counter: the record and answer of the in-memory store |
| Histories.EveryHistoryKeepsOneLog | src/blackboard/_board.py:263-278 | in every reachable state log, versions, keys and rows agree |
| Histories.Agree | src/blackboard/_control.py:80-200 | over every history of declare, append, set, read, delete and time passing, the four stores answer alike and end with one record |
| Histories.LevelReads | src/blackboard/_board.py:455-467 | a level read is the writes to the level from the bound, whole, once each and in order, all of them or the first as many as asked |
| Histories.PremiseReads | src/blackboard/_board.py:469-478 | a premise reads as its last write, whole, at the number of its writes |
| Histories.BoardReads | src/blackboard/_board.py:480-487 | a board read is the writes from the bound, whole and without a gap, as many as there are or as asked |
| Histories.NoLostUpdate | src/blackboard/_board.py:405-453 | whatever clients interleave, a premise's value is the successful updates composed in sequence order |
| Histories.RepeatAnswersAlike | src/blackboard/_board.py:303-320 | after any history, a write sent again under its key is answered with its first number and version and stores nothing |
| Histories.ConflictSaysCurrent | src/blackboard/_board.py:425-437 | a conflict says the version a read answers with, and expecting that one is accepted |
| Histories.ClientsStayCurrent | src/blackboard/_board.py:469-478 | each version a client read names the value it read |
| Clocks.TakeDueTakes | src/blackboard/_clock.py:92-105 | one turn takes the least due call, ties in arming order, and drops only cancelled calls |
| Clocks.AdvanceReachesTarget | src/blackboard/_clock.py:82-107 | time ends at the target and only later calls are left |
| Clocks.EveryCallAccountedFor | src/blackboard/_clock.py:82-107 | every call standing or armed meanwhile is fired once, dropped as cancelled, or left, and exactly one of them |
| Clocks.FiresInOrderIffPunctual | src/blackboard/_clock.py:85-88 | calls fire in due order exactly when no callback arms one due before its own instant |
| Clocks.OutOfOrderExample | src/blackboard/_clock.py:85-88 | a callback that arms in the past breaks due order |
| Clocks.AdvanceEnds | src/blackboard/_clock.py:82-107 | callbacks that arm only past the target let the advance end within the calls due and one turn more |
| Clocks.ManualClock.CallAt | src/blackboard/_clock.py:75-80 | arms one call, last in arming order |
| Clocks.ManualClock.CancelCall | src/blackboard/_clock.py:52-59 | cancels that call and no other |
| Clocks.ManualClock.TakeNext | src/blackboard/_clock.py:92-105 | the filter, the choice and the removal are one turn |
| Clocks.ManualClock.Advance | src/blackboard/_clock.py:82-107 | refuses to go back; otherwise leaves world and clock as all turns together do |
| ControlObjects.Earliest | src/blackboard/_control.py:1576-1576 | the least due instant of a pending set |
| ControlObjects.RegionsNamed | src/blackboard/_control.py:1526-1535 | the comprehension over a tail names the regions changed since an answer that the agent is to hear of |
| ControlObjects.Converge | src/blackboard/_control.py:855-877 | regions given converge with those held, exactly unless one is held as the other kind, is to be adopted and absent, or is new and given twice |
| ControlObjects.Control.constructor | src/blackboard/_control.py:878-892 | over a board that holds at least the regions given, continues from the record's end, opens the run and arms the wall clock limit |
| ControlObjects.Control.TouchIdle | src/blackboard/_control.py:1765-1778 | moves the recorded deadline, cancels the armed one, and arms the next generation |
| ControlObjects.Control.Dispatch | src/blackboard/_control.py:1652-1687 | lets the window go, names all pending, touches, tells the record and caches the cursor; a callable held carries it, and an address only where there is none |
| ControlObjects.Control.Evaluate | src/blackboard/_control.py:1557-1589 | clears, dispatches, arms again for an earlier instant, or leaves the window armed |
| ControlObjects.Control.NoteRegionChange | src/blackboard/_control.py:1471-1493 | every held subscriber but the writer hears of a write, after the agents reached by address |
| ControlObjects.Control.WhoHears | src/blackboard/_control.py:1452-1469 | exactly the declared agents that subscribe to the region, or named no subscriptions where it is a premise, less the writer |
| ControlObjects.Control.Owed | src/blackboard/_control.py:1509-1515 | the hearers not held here that have an address and are behind |
| ControlObjects.Control.Floor | src/blackboard/_control.py:1518-1520 | the least any of them has answered |
| ControlObjects.Control.ReachRest | src/blackboard/_control.py:1495-1555 | each hearer not held here that has an address and is behind is told what changed since its own answer, unless the region has a window |
| ControlObjects.Control.Sequence | src/blackboard/_control.py:1067-1084 | the gate, the store with its rows, and the block's notifications: each hearer held here is told at once or pending within the window, each reached by address is sent one notification with the write in it, and nobody by address where there is a window |
| ControlObjects.Control.Write | src/blackboard/_control.py:1028-1089 | which answer comes exactly when, a level outside the writer's declared set never stored; an admission rejection, a conflict or a stored entry pushes the idle deadline, and anything else leaves everything as it was; one entry with that content, key and writer is stored, or none |
| ControlObjects.Control.Refuses | src/blackboard/_control.py:1903-1931 | what is refused before admission: a wrong kind is one the store would refuse too, and what is let past the store refuses for a reused key and nothing else |
| ControlObjects.Control.RegisterAgent | src/blackboard/_control.py:929-1018 | a returning agent resumes from the record's answer, is behind on just the regions it is to hear of that hold something, a level at once and a premise after its window, and is woken exactly where something is due and unanswered |
| ControlObjects.Control.Admits | src/blackboard/_control.py:946-965 | a declaration is let in exactly on an open Control where each region it names is one the Control and the board hold, and each it writes to a level |
| ControlObjects.Control.Ack | src/blackboard/_control.py:1167-1210 | an answer past the last and within what was told raises both cursors and pushes the deadline; any other changes nothing |
| ControlObjects.Control.Deliver | src/blackboard/_control.py:1723-1763 | a row leaves exactly where some delivery to its agent reaches it, returned, and was not left to a lane to mark |
| ControlObjects.Control.CloseLocked | src/blackboard/_control.py:1836-1883 | the store decides who closes; a loser adopts what was written, and every call and pending set is dropped |
| ControlObjects.Control.Abort | src/blackboard/_control.py:1146-1150 | an outcome already held is kept; otherwise the Control ends with the record's, its own where the run was open, nothing pending and no window armed |
| ControlObjects.Control.WallClockExpired | src/blackboard/_control.py:1896-1901 | an outcome held is kept; an open run is recorded as expired, naming exactly the agents told further than they have answered, and the Control holds the same |
| ControlObjects.Control.IdlePassed | src/blackboard/_control.py:1780-1792 | settles an open run only under the current generation and with no predicate to ask, naming exactly those agents |
| ControlObjects.Control.Judge | src/blackboard/_control.py:1797-1804 | an overtaken verdict changes nothing; on complete an open run settles, naming exactly those agents, and otherwise the deadline is a whole limit away and the verdict overtaken |
| ControlObjects.Control.CloseWindow | src/blackboard/_control.py:1702-1720 | a stale generation does nothing; the current one dispatches what is pending |
| ControlObjects.Control.LeastAnswered | src/blackboard/_control.py:1387-1387 | the floor a poll reads from |
| ControlObjects.Control.AddTailTo | src/blackboard/_control.py:1395-1424 | each change that counts leaves its region due no later than what is left of its window on the record's clock, and each region stays at one of those instants or at its own |
| ControlObjects.Control.TakeTail | src/blackboard/_control.py:1375-1424 | one read folded into every considered agent's pending set |
| ControlObjects.Control.NotifyDue | src/blackboard/_control.py:1332-1373 | a poll takes a closing's outcome; on an open run it tells in that same poll each agent it holds of every change its one read reaches whose window has passed |
| ControlObjects.Control.RowsOwed | src/blackboard/_control.py:1278-1285 | the last row of each agent, from the earliest rows, all of them where there are no more than one read takes |
| ControlObjects.Control.RelayByAddress | src/blackboard/_control.py:1271-1330 | each agent not held is skipped, marked moot, or told and sent to, and marked and named exactly where the send returns |
| ControlObjects.Control.RelayHeld | src/blackboard/_control.py:1233-1259 | exactly the held agents a row is owed to, resent from the least advanced of them |
| ControlObjects.CloseExpired | src/blackboard/_control.py:1958-1989 | closes a run exactly when a limit has passed on the store's clock, as that limit, naming exactly the agents told further than they have answered |
| ControlObjects.PutStoresOnce | src/blackboard/_board.py:376-403 | a write refused, in conflict or repeated leaves the record as it was |
| ControlObjects.AnsweredAlready | src/blackboard/_control.py:1200-1204 | an acknowledgment already made moves nothing on the record |
| Cursors.DispatchMoves | src/blackboard/_control.py:1652-1687 | a dispatch issues an identifier the store accepts, over a range that starts at the first unanswered write |
| Cursors.EvaluateMoves | src/blackboard/_control.py:1557-1589 | an evaluation keeps cursors behind and what was told covered |
| Cursors.ReachRestMoves | src/blackboard/_control.py:1495-1555 | so does reaching agents by address |
| Cursors.SequenceMoves | src/blackboard/_control.py:1067-1084 | so does the whole sequencing block |
| Cursors.RegisterMoves | src/blackboard/_control.py:929-1018 | so does any registration, which changes what no other agent wants and adds no row but a wanted one |
| Cursors.TakeTailMoves | src/blackboard/_control.py:1375-1424 | a tail changes pending sets and nothing a cursor depends on |
| Cursors.CloseMoves | src/blackboard/_control.py:1836-1883 | a Control that closes holds the outcome the record holds, won or lost |
| Cursors.PollMoves | src/blackboard/_control.py:1332-1373 | a poll keeps all of it |
| Cursors.OthersStayBehind | src/blackboard/_control.py:611-616 | whatever another process does, what this one caches is behind and never ahead |
| Effects.WriteAnswers | src/blackboard/_control.py:1028-1089 | the answer of a write, case by case, from the outcome, the region's kind, the writer's declared levels and the admission rule |
| Effects.WriteStores | src/blackboard/_control.py:1063-1083 | a write accepted anew stores one entry with its content, version, key, writer and instant, under its number |
| Effects.EventsPush | src/blackboard/_control.py:1806-1816 | a rejection by the admission rule, a conflict or a stored entry pushes the idle deadline, and nothing else changes anything |
| Effects.DeliveredRowsGo | src/blackboard/_control.py:1742-1761 | the rows a drained queue takes are exactly those a returned delivery that marks here reaches |
| Effects.WriteReachesHere | src/blackboard/_control.py:1471-1493 | each held agent that is to hear of a write is told once, with everything pending, where nothing is left to wait for, and otherwise is pending no later than one window from now |
| Effects.WriteReachesAway | src/blackboard/_control.py:1495-1555 | each agent by address that is to hear of a write to a region without a window is sent one notification, from its first unanswered write to this one, naming the region |
| Effects.WindowedReachesNone | src/blackboard/_control.py:1507-1508 | a region with a window sends nothing by address |
| Effects.TailDues | src/blackboard/_control.py:1406-1424 | a tail's instants are what is left of each change's window, and the earliest stands |
| Effects.PollTellsElapsed | src/blackboard/_control.py:1332-1373 | a change whose window has passed on the record's clock is told in the poll that reads it |
| Effects.RegisterWakes | src/blackboard/_control.py:999-1013 | a registration begins behind on what holds something and wakes the agent exactly where some of it is due |
| Effects.CloseSays | src/blackboard/_control.py:1836-1855 | the first to close records its own outcome and a later one holds what the record says |
| Effects.PollAdopts | src/blackboard/_control.py:1352-1357 | a poll on a closed run takes its outcome and sends nothing |
| Effects.DeadlinesName | src/blackboard/_control.py:1780-1834 | a deadline passing records exactly the agents told further than they have answered |
| Deliveries.DrainingIsSteps | src/blackboard/_control.py:1723-1763 | the drain loop does to the record what call, end and mark do as steps of the protocol, and leaves nothing in flight |
| Closings.ClosingNamesUnfinished | src/blackboard/_control.py:1829-1855 | over every run, what closes it is recorded as what closed it, naming exactly the agents told further than they had answered when it, or the sweep's read, found them; an abort names nobody |
| Protocol.MootRowAnswered | src/blackboard/_control.py:1304-1308 | a row found moot has been answered, where the pass read as far and its Control knows the region |
| Protocol.MarkKeeps | src/blackboard/_control.py:1747-1761 | marking after a send that returned loses no unanswered row |
| Protocol.RelayIssues | src/blackboard/_control.py:1309-1320 | telling the record before a relay's send keeps every promise if the send fails |
| Protocol.NextKeeps | src/blackboard/_control.py:804-1904 | every step of any process, crashes included, keeps the invariant and takes nothing back |
| Protocol.EveryRunKeeps | src/blackboard/_control.py:804-1904 | so does every run |
| Guarantees.WriteReachesEveryHearer | src/blackboard/_control.py:1071-1087 | at least once: after any run, an agent to hear of a write within the most a relay reads, in a region every relaying Control knows, has its row, or a send covering it returned, or it answered past it, or it registered not to hear of it |
| Guarantees.GivenUpIsOutOfSight | src/blackboard/_control.py:1287-1308 | in any life a row gone unsent and unanswered is for a write past the most a relay reads, or in a region some relaying Control does not know |
| Guarantees.RenouncedByItsAgent | src/blackboard/_control.py:929-1018 | a row counts as registered away only by a declaration of its own agent that does not want the change |
| Guarantees.CursorsStayInOrder | src/blackboard/_control.py:611-616 | local answered, recorded answered, recorded told and the board's end are in order for every Control and agent |
| Guarantees.IssuedCanBeAnswered | src/blackboard/_control.py:1664-1677 | every identifier issued is acceptable to the store, and answering it answers its range |
| Guarantees.ToldIsInSomeRange | src/blackboard/_control.py:1664-1677 | every sequence told and not answered is in the range of a notification issued |
| Guarantees.ClosesOnceAndAgrees | src/blackboard/_control.py:1836-1855 | a run closes once, its outcome never changes, and every closed Control holds it |
| Relays.ServesIsRelayOne | src/blackboard/_control.py:1291-1329 | a pass as steps of the protocol does to the record what the Control's loop body does, whether its send returns or raises |
| Relays.PassLeavesNothing | src/blackboard/_control.py:1271-1330 | a pass whose sends return leaves no row for any declared agent with an address it does not hold |
| Relays.RowsGivenUpIff | src/blackboard/_control.py:1287-1308 | for every board, region and position some life gives such a row up, if and only if the write is past the most a relay reads or its region not one every relaying Control knows |
| Relays.RelayLosesARow | src/blackboard/_control.py:1287-1308 | the life that does, in each such case: an agent hears of one write after its own, and a pass marks the row moot |
| Relays.TailAdds | src/blackboard/_control.py:1395-1424 | a tail leaves pending what was, and the region of each change it is to add |
| Relays.ResentNamesIff | src/blackboard/_control.py:1247-1251 | a resent notification names what was pending and what changed since the least answer; where one read reaches the end that is never less than all since the agent's own answer, and exactly that if and only if the rest has changed again |
| Relays.ResentNamesAnswered | src/blackboard/_control.py:1247-1251 | a run of steps in which an agent first told of one region is resent that and one it has answered |
| Sessions.DoesBlocks | src/blackboard/_control.py:1765-1778 | no act moves time, arms an idle call for another instant or generation, reopens a run, or moves the recorded deadline but with its own |
| Sessions.FiredBlocks | src/blackboard/_control.py:1780-1804 | nor does any call firing |
| Windows.EvaluateWires | src/blackboard/_control.py:1557-1589 | after an evaluation an agent with anything pending has a standing call of its own generation due no later than any of it |
| Windows.DoesWires | src/blackboard/_control.py:804-1904 | every act keeps every window, the idle deadline and the wall clock limit armed |
| Windows.FiredWires | src/blackboard/_control.py:1702-1721 | so does every call taken off the clock and fired |
| Windows.ClosedStays | src/blackboard/_control.py:1818-1827 | a closed Control stays closed, sequences nothing, fills no pending set and arms no call |
| Windows.CloseSilences | src/blackboard/_control.py:1862-1877 | closing leaves no call standing and nothing pending |
| Windows.BeginsStanding | src/blackboard/_control.py:878-892 | a Control begins with its wall clock call standing |
| Windows.ActsKeepStanding | src/blackboard/_control.py:804-1904 | any sequence of acts keeps what stands |
| Windows.AdvanceKeepsStanding | src/blackboard/_clock.py:82-107 | so does an advance, whatever the application does in reaction to each call |
| Windows.NothingOverdue | src/blackboard/_clock.py:82-107 | after an advance no pending change's window has elapsed, no limit has passed unjudged, and a closed Control has no call standing |
| Windows.StandingCarries | src/blackboard/_control.py:1685-1686 | nothing is pending for an agent nothing can carry to, as the source asserts at dispatch |
| Windows.WindowRangeIff | src/blackboard/_control.py:1718-1719 | a window closing issues an empty range exactly when an evaluation would have cleared instead |
| Windows.EmptyRangeIsIssued | src/blackboard/_control.py:1718-1719 | a life that reaches it |
| Silence.SettlesInSilence | src/blackboard/_control.py:1780-1804 | with cancelling worth nothing, a Control settles only one whole idle limit after every event of its life |
| Silence.OvertakenVerdict | src/blackboard/_control.py:1797-1804 | a verdict overtaken by an event changes nothing |
| Silence.SettlesEarlyIff | src/blackboard/_control.py:1765-1804 | over every life, a settling comes before the recorded deadline if and only if what moved that last, in any process, is less than its idle limit back on the record's clock |
| Silence.OthersMoveNoDeadline | src/blackboard/_board.py:506-536 | no operation of a store but opening and touching a run moves an open deadline |
| Silence.AloneSettlesOnDeadline | src/blackboard/_control.py:1765-1778 | alone on its record with clocks in step, a Control settles only when the recorded deadline has passed too |
| Silence.SettlesBeforeDeadline | src/blackboard/_control.py:1780-1804 | with another process it may settle sooner |
| PendingSets.PendingIsAScan | src/blackboard/_control.py:1471-1493 | what is pending includes every region changed since the agent was told or answered, and is exactly what changed since it was told once it has been |
| PendingSets.PendingSinceToldIff | src/blackboard/_control.py:1471-1493 | it includes all that changed since the agent was told if and only if the agent has been told since it registered or nothing between telling and answer is missing |
| PendingSets.EvaluateDropsIff | src/blackboard/_control.py:1571-1575 | an evaluation keeps all that changed since the telling if and only if something sequenced is unanswered or nothing it is to hear of changed |
| PendingSets.DroppedByAPoll | src/blackboard/_control.py:1571-1575 | a life in which an agent that registers again loses what is pending |
| PendingSets.WriteNamesChanges | src/blackboard/_control.py:1471-1493 | what a write's notifications name is what changed since the last |
| PendingSets.PollNamesChanges | src/blackboard/_control.py:1332-1373 | likewise a poll's |
| PendingSets.PollHears | src/blackboard/_control.py:1332-1424 | whatever other processes write, after a poll each region it read that an agent is to hear of past its telling is named to it, or pending, or answered |
| PendingSets.WindowNamesChanges | src/blackboard/_control.py:1702-1720 | likewise a closing window's |
| PendingSets.RegisterScans | src/blackboard/_control.py:999-1013 | a registration leaves pending at least all that is unheard |
| Lanes.EveryNotificationEnds | src/blackboard/delivery.py:450-552 | what ended, is in hand and is queued is what was accepted, in order, and each ends once within its calls |
| Lanes.RowsLeaveAfterSends | src/blackboard/delivery.py:323-341 | a row goes only after the transport took a notification that reaches it |
| Lanes.SendEndsOnce | src/blackboard/delivery.py:524-552 | a send makes exactly the calls up to the first taken, refused or cut, or the limit, lands exactly when that one takes it, and its rows go exactly when it lands and the store can be told |
| Lanes.DrainSends | src/blackboard/delivery.py:498-522 | each notification before the stop mark ends as its own calls are answered, and each behind it is reported without a call |
| Lanes.Lane.Enqueue | src/blackboard/delivery.py:450-471 | accepts and queues last, or on a stopped lane turns away and reports at once |
| Lanes.Lane.Stop | src/blackboard/delivery.py:484-490 | one stop mark, behind everything queued |
| Lanes.Lane.Send | src/blackboard/delivery.py:524-552 | the retry loop ends as its calls and waits say |
| Lanes.Lane.Drain | src/blackboard/delivery.py:498-504 | the worker sends up to the stop mark, reports what is behind it, and leaves nothing |
| Lanes.Lane.AbandonWhatIsLeft | src/blackboard/delivery.py:506-522 | everything behind the mark is reported, in order |
| Clients.KeyedWriteOnce | src/blackboard/agent.py:625-648 | through any network and any other callers a key names at most one entry, and an answer that it was written names that entry |
| Clients.KeyedWriteIsOurs | src/blackboard/agent.py:625-648 | where no one else uses the key, that entry is this write |
| Clients.SendStops | src/blackboard/agent.py:625-648 | sending stops at the first delivered answer, and otherwise at the limit |
| Clients.BoardClient.Send | src/blackboard/agent.py:625-648 | a write is transmitted until an answer is delivered, at most the limit of times with a key and once without, and is unreachable exactly where none is |
| Clients.AnswerPage | src/blackboard/server.py:296-321 | one page: the bounds, one row more than asked, and the cut |
| Clients.PageIsPrefix | src/blackboard/server.py:450-458 | a page is the first of what is left and says truly whether there is more |
| Clients.PagesJoin | src/blackboard/agent.py:426-434 | the next bound reads exactly the rest |
| Clients.BoardClient.ReadLevel | src/blackboard/agent.py:512-538 | followed to the end while others write, the pages are the level as it stood at the last of them |
| Paths.UnquoteQuote | src/blackboard/wire.py:368-368 | percent-decoding undoes percent-encoding |
| Paths.Path | src/blackboard/wire.py:360-372 | a path is the template with each variable in its place in whatever order they are put in, or says which it does not take or that one is missing |
| Paths.Match | src/blackboard/server.py:406-420 | the loop over segments answers as matching them one by one does |
| Paths.BuiltMatchesIff | src/blackboard/server.py:406-420 | a built path gives its variables back exactly when none is empty |
| Paths.OnlyItsOwn | src/blackboard/wire.py:383-415 | no other operation of the same method takes it |
| Paths.Route | src/blackboard/server.py:206-230 | the operation of that method, or the methods the path takes, or no route |
| Paths.SendAndRoute | src/blackboard/server.py:206-224 | sent and routed, the operation and its variables come back |
| Answers.AnswerComesBack | src/blackboard/agent.py:314-341 | whatever the service answers a write, with fields of a later version beside, is what the client reads, and none asks for another attempt |
| Answers.OlderAnswerIsRead | src/blackboard/agent.py:317-325 | an older service's body without the optional fields is read, a 200 as a repeat |
| Tools.Fit | src/blackboard/tools.py:525-539 | keeps at least one of something, and otherwise a prefix that fits |
| Tools.LargestIff | src/blackboard/tools.py:526-527 | it is the largest that fits, whatever the entries take, exactly for at most four |
| Tools.NearLargest | src/blackboard/tools.py:525-539 | where every prefix up to a length fits, what is kept is within a quarter of that length |
| Tools.Render | src/blackboard/tools.py:542-558 | the prefix kept, where to go on from, and how many were left out |
| Tools.Visit | src/blackboard/tools.py:542-558 | going on from each answer sees every entry once, in order, in finitely many calls |

## Left out

- Guarantees.WriteReachesEveryHearer: speaks of the agents declared when the write was sequenced, because the subscribers are read before the append; and of a board whose regions are fixed for the opening.
- Guarantees.ClosesOnceAndAgrees: is per opening; `open_run` clears a recorded outcome (`src/blackboard/_board.py:506-513`) and begins another history. A Control that has not learnt of a closing may still sequence writes, as `append` and `set` do not look at the run.
- ControlObjects.Control.constructor: takes a record that already holds the regions given, which is what `ControlObjects.Converge` leaves.
- ControlObjects.Control.CloseWindow: asks for what the source asserts, that nothing is pending for an agent nothing can carry to; `Windows.StandingCarries` is that for every life.
- ControlObjects.Control.Admits: where a declaration names both an undeclared region and a premise to write to, the source raises for whichever it comes to first and the model for the undeclared one.
- ControlObjects.Control.Deliver: the callable's own calls back into the Control are other steps; the per-thread flag that flattens them is not modelled.
- ControlObjects.Control.RelayByAddress: agents are gone through in any order, where the source sorts them by name; nothing is modelled of a send's exception beyond that it raised.
- ControlObjects.Control.RelayHeld: the names of held agents in the list `relay` returns are not modelled.
- ControlObjects.Control.TakeTail: every write carries the instant it was stored; the one without, kept by older databases, is not modelled.
- MemoryStores.InMemoryStore.Unsent: rows of one sequence come in any order, where the source breaks the tie by board and agent.
- PostgresStores.PostgresStore.Set: a transaction is one step that commits or rolls back, so two writers of one premise are already in some order.
- Lanes.Lane.Enqueue: the stopped check and the put are one step, which in the source they are not.
- Clients.BoardClient.ReadLevel: pages a level; `read_board` follows the same loop over every region. Backoff pauses are not modelled.
- Clients.KeyedWriteOnce: a delayed duplicate of a request is one of the other callers' operations.
- Paths.SendAndRoute: names are the bytes of their UTF-8 text; a surrogate without its pair, which has none, is not part of this model, nor is the mounting prefix.
- Answers.AnswerComesBack: a field of another JSON type than the body declares is a protocol error here, where the source carries it on.
- One board for each store; the source keeps a dictionary of them under one lock.
- An agent's state and a run's record are values held in a field, replaced whole, so nothing is said of two names for one of them.
- The database adapters' run, agent and outbox tables, schema stamping and migration.
- Opening premises, which are set before any agent is registered.
- `on_closed` callbacks, `wait_closed`, `Sweep`'s thread, the asynchronous client, HTTP itself, and the encoding of contents.
- Small validators, default waits, tool descriptions and error wording: they would only add easy members.
