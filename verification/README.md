# Verified cores of a 3D-printer firmware

This project models the stateful cores of RepRapFirmware in Dafny and proves what they guarantee. Each core is an
imperative model (classes with mutable fields, pointer lists, arrays, loops) proved against specification functions, and
the guarantees are proved about those functions for every input and every run.

| files | core |
|---|---|
| `OutputMemory.dfy`, `OutputClients.dfy` | the pool of 256-byte output buffers, their chains, sharing a chain among holders, all runs of pool operations |
| `JsonText.dfy`, `OutputEncoder.dfy` | JSON string encoding into a chain |
| `Transactions.dfy`, `TransactionFlow.dfy`, `NetworkQueues.dfy`, `TransactionSteps.dfy`, `TransactionSending.dfy`, `NetworkRuns.dfy` | network transactions: pointer lists, the step machine and its invariants, the lists in memory, commit/defer/discard, the sender, whole runs in memory |
| `TransactionTurns.dfy`, `TransactionStarving.dfy`, `TransactionEnds.dfy`, `TransactionOrder.dfy` | over whole runs: who is served when and who is not, what ends a connection, and the order of requests |
| `FilamentReceiver.dfy`, `FilamentFrames.dfy` | the serial receiver of the filament sensors: on a transmission, and on any line at all |
| `GCodeLines.dfy`, `GCodeTexts.dfy`, `GCodeBuffers.dfy` | assembling a line of G-code with its number, comments and checksum, splitting it into commands, quoted strings |
| `HttpQueries.dfy`, `HttpInterpreters.dfy` | the first line of an HTTP request |
| `SoftTimers.dfy`, `ZProbePrograms.dfy` | software timers on a wrapping clock, and the bit-serial Z probe programmer |
| `DotStarLeds.dfy` | chunked transmission to LED strips |
| `Options.dfy`, `Basics.dfy` | optional values, and small definitions that several modules share |

How the network model is put together: `TransactionFlow` describes the network as a value (`Net`) and each operation as
a function on it; `Good` is the invariant, `Next` one step, `Runs`/`After` whole runs. `NetworkQueues`,
`TransactionSteps` and `TransactionSending` are the pointer code. `Network.Repr` ties memory to a `Net`, and every
method states that the `Net` it leaves is the `Next` of the one it found. `NetworkRuns.Run` performs any list of
operations in memory and ends in `After` the steps they make. `OutputClients`, `SoftTimers` and `FilamentReceiver` are
built the same way: the state as a value, a function for each step, `After` for whole runs, theorems about all runs, and
the code in memory proved to follow them.

Conventions. Clock readings are parameters. Tick counts are taken modulo 2^32 and stand for unbounded times. A critical
section is one atomic step. A `StringRef` has enough capacity. Characters are byte values.

Where code and expectation differ, the code is modelled:

- The start bit of a filament sensor word may be rejected although its length is within the limits: the falling edge is
  recorded late, and the wait for it times out after the maximum length. `LateEndOfStartBitFails` shows that this happens
  whenever the end of the start bit can become visible later than that; `StepTracks` and `RunFollows` show that it never
  happens otherwise.
- After a bad checksum on a numbered line the buffer is rewritten without its length. `LineFinished` models that, and
  promises the commands of the line exactly for lines with a good or an unneeded checksum.
- The writing list is rotated so that every client is served (`src/Duet/Network.cpp:476`), but a connection that comes to
  the front because the one being served has left the line goes to its end unserved. `SkippedInRound` is a round that
  skips a connection, and `NeverServed` are runs of any length that never serve one. `PassedOverIfFirst` says exactly
  when it happens. `TurnsAreShared` and `OneTurnEach` show that turns are shared equally while the line stays the same,
  and `EveryoneHasATurn` bounds the wait in every run.
- A percent escape with lower-case hexadecimal digits is refused (`EscapeRefused`).
- Deferring a transaction keeps the order of its own connection exactly when it was the first of it (`DeferIsStable`).

## Model

| member | source | states |
|---|---|---|
| OutputMemory.Pool.constructor | src/OutputMemory.cpp:347-354 | all buffers are free and linked, none used, maximum zero |
| OutputMemory.Pool.Allocate | src/OutputMemory.cpp:357-386 | fails exactly when nothing is free; otherwise the first free buffer becomes an empty, unshared chain of one, and the recorded maximum keeps up |
| OutputMemory.Pool.Release | src/OutputMemory.cpp:441-460 | gives up one claim on any item of a list; only the last one puts the buffer on the free list; returns the next item; if it was the first, the rest of the list stays well-formed |
| OutputMemory.Pool.ReleaseAll | src/OutputMemory.cpp:462-468 | an unshared chain goes back to the pool, every buffer once |
| OutputMemory.Pool.Cat | src/OutputMemory.cpp:197-226 | appends exactly the reported prefix; stops short only with the tail full, the pool empty and overflow flagged; every item still knows the tail; takes buffers from the pool in order and no more than needed; each buffer is filled before the next is begun, and none before the old tail changes |
| OutputMemory.Pool.Copy | src/OutputMemory.cpp:148-159 | the chain holds exactly the reported prefix of the source, its other buffers having gone back to the pool first |
| OutputMemory.Append | src/OutputMemory.cpp:20-36 | the joined chain is well-formed with every `last` at the new tail, and its bytes are the concatenation |
| OutputMemory.Pool.Truncate | src/OutputMemory.cpp:404-438 | what remains is a whole-buffer prefix, 256 times the buffers freed is returned, nothing is freed exactly when the chain is single or shared, and no more is freed than asked for |
| OutputMemory.Pool.GetBytesLeft | src/OutputMemory.cpp:389-401 | the room in the tail plus the free buffers beyond the reserve |
| OutputMemory.Pool.CatReserved | src/OutputMemory.cpp:197-226 | writing up to what `GetBytesLeft` reports always succeeds without overflow and leaves at least the smaller of the free and the reserved buffers |
| OutputMemory.Reservation | src/OutputMemory.cpp:389-401 | the arithmetic of that guarantee for every room, reserve and length |
| OutputMemory.IncreaseReferences | src/OutputMemory.cpp:38-50 | every item of the chain gets the claims, and is marked as shared |
| OutputMemory.HolderRelease | src/OutputMemory.cpp:441-460 | one holder's release keeps: counts equal the holders still to come, cursors never on free buffers, buffers freed in chain order |
| OutputMemory.RunHolders | src/OutputMemory.cpp:441-468 | every schedule of holders' turns keeps that invariant, and says how far each holder has got |
| OutputMemory.ReleaseByHolders | src/Platform.cpp:3536-3579 | sharing an unshared chain among n holders and releasing it in any interleaving: each buffer is freed once, by the last holder; when all are done the whole chain is back |
| OutputMemory.OneHolderMoves | src/OutputMemory.cpp:441-460 | which counts change, and whether the first buffer in use becomes free, when one holder moves on |
| OutputClients.New | src/OutputMemory.cpp:357-386 | allocating adds a new empty chain exactly when something is free; all other chains keep their texts and buffers |
| OutputClients.Write | src/OutputMemory.cpp:197-226 | `cat` on one chain in memory is the `Cat` step of the pool as a value: its text and the sizes of its buffers, the free count and the maximum are those of the step, and all other chains keep theirs |
| OutputClients.Replace | src/OutputMemory.cpp:148-159 | `copy` is the `Copy` step in the same sense |
| OutputClients.Join | src/OutputMemory.cpp:20-36 | `Append` is the `Append` step: one chain with both texts, and the rest as it was |
| OutputClients.Cut | src/OutputMemory.cpp:404-438 | `Truncate` is the `Truncate` step: the smallest number of buffers that is enough leaves the end of the chain, but never its head |
| OutputClients.Drop | src/OutputMemory.cpp:462-468 | releasing a chain is the `Release` step; all its buffers go on the free list, last first |
| OutputClients.Perform | src/OutputMemory.cpp:20-468 | every operation on the pool in memory is its step on the value, whichever chain it is for |
| OutputClients.Run | src/OutputMemory.cpp:347-468 | after every run of these operations the chains, their texts, the sizes of their buffers and the number of free ones are those the run leads to; free list and live chains are acyclic, pairwise disjoint and together the whole pool; the recorded maximum is the greatest number in use after any operation |
| OutputClients.Next | src/OutputMemory.cpp:20-468 | every step conserves the buffers, keeps each text as long as its buffers are filled, and no more are in use than has been recorded |
| OutputClients.CatAppends | src/OutputMemory.cpp:197-226 | what `cat` appends is exactly the part of the source for which there is space in the tail and the free buffers; if that is not all, nothing is free and the tail is full; no other chain changes |
| OutputClients.GrownFits | src/OutputMemory.cpp:389-401 | a chain takes no more buffers than are free for any length within its space, and all of them exactly when it uses the space up |
| OutputClients.PeakIsHighest | src/OutputMemory.cpp:364-372 | over every run the recorded maximum is the highest number of buffers in use |
| JsonText.ReadsBack | src/OutputMemory.cpp:234-299 | for every text, un-escaping undoes escaping, and rejects nothing: no quote in escaped text is bare; a strict reader (section 7 of RFC 8259) accepts it if and only if the only control characters in the text are those that get escaped |
| JsonText.EncodingReadsBack | src/OutputMemory.cpp:234-299 | for every text and every setting of the arguments, what is between the quotes and behind the asterisk un-escapes to exactly the longest allowed prefix |
| JsonText.ValidIfPrintable | src/OutputMemory.cpp:234-299 | the quoted encoding is a valid JSON string for that prefix if and only if it is printable, which it always is when control characters are not allowed |
| JsonText.EscapingAdds | src/OutputMemory.cpp:253-283 | escaping adds one character for each quote, backslash, newline, return and tab in a text, and leaves it as it is exactly if it has none of them |
| JsonText.Encodable | src/OutputMemory.cpp:246-251 | that prefix is the longest one without a terminator or a forbidden control character |
| OutputEncoder.EncodeString | src/OutputMemory.cpp:234-299 | what arrives is the prefix of the encoding that the returned count says, the whole of it unless an overflow is flagged |
| OutputEncoder.EncodeReply | src/OutputMemory.cpp:306-318 | without overflow one quoted encoding of the whole reply is appended and its length returned; every source buffer ends up free or reused |
| OutputEncoder.ReplyReadsBack | src/OutputMemory.cpp:306-318 | for all buffers and both settings that encoding is one string for what is kept of the text, however it was split; all of it is kept if and only if no buffer has a character that may not be encoded |
| Transactions.AppendTransaction | src/Duet/Network.cpp:947-955 | the list in memory with the transaction at its end |
| Transactions.PrependTransaction | src/Duet/Network.cpp:957-961 | the list in memory with the transaction at its front |
| Transactions.Unlink | src/Duet/NetworkTransaction.cpp:489-506 | the list in memory without the transaction, unchanged if it was not there |
| Transactions.DeferInList | src/Duet/NetworkTransaction.cpp:489-540 | the loop ends, and the list is the other connections' transactions, then this one, then the rest of its connection, each in the old order |
| Transactions.DeferIsStable | src/Duet/NetworkTransaction.cpp:489-540 | nothing is lost or duplicated, every other connection keeps its order, and this one keeps its order if and only if the transaction was first of it |
| TransactionFlow.StepKeeps | src/Duet/Network.cpp:470-761 | every step (accept, receive, graceful close, acquire, get, write, commit, defer, discard, send, acknowledge, lost connection) keeps the whole invariant |
| TransactionFlow.StepConserves | src/Duet/Network.cpp:470-761 | no step makes a transaction appear or disappear |
| TransactionFlow.PartitionOverRuns | src/Duet/Network.cpp:470-1085 | over every run from start-up each transaction is on exactly one of the free, ready and writing lists or behind exactly one connection, no list repeats, and each connection has at most one transaction in the writing list |
| TransactionFlow.StreamsOverRuns | src/Duet/NetworkTransaction.cpp:264-458 | over every run, what a connection was given and what its queue still holds make up what was committed on it in commit order; with the queue empty all of it was given; at most one window is unacknowledged, and none when a window may be filled |
| TransactionFlow.StepStreams | src/Duet/NetworkTransaction.cpp:264-458 | only a commit adds to what is promised, by that transaction's output; only sending adds to what was given, by the next bytes of the transaction in turn |
| TransactionFlow.StreamsGrow | src/Duet/NetworkTransaction.cpp:264-458 | over every run in which a connection stays open its streams grow exactly by the concatenation of what the steps promise and give |
| TransactionFlow.CommitsAreSent | src/Duet/NetworkTransaction.cpp:264-458 | from the acceptance of a connection on, the outputs committed on it are, in commit order, what has been given to the TCP stack followed by what is still queued; with the queue empty all of it has been given |
| TransactionFlow.CommitGood | src/Duet/NetworkTransaction.cpp:364-458 | a commit keeps the invariant whether the connection is kept, given up or already gone |
| TransactionFlow.CloseGood | src/Duet/Network.cpp:621-726 | closing a connection returns all its transactions and keeps the invariant |
| TransactionFlow.SendGood | src/Duet/NetworkTransaction.cpp:264-360 | so does every outcome of a send |
| TransactionFlow.AcknowledgeGood | src/Duet/NetworkTransaction.cpp:77-97 | acknowledgements keep the firmware's count equal to what is unacknowledged |
| TransactionTurns.InLine | src/Duet/Network.cpp:470-496 | a connection is in line exactly while something is queued on it, and then once |
| TransactionTurns.StepLine | src/Duet/Network.cpp:470-496 | a send puts the first in line last and serves the next, which stays first or leaves; any other step leaves the line as it is, takes one connection out of it, or adds one at its end |
| TransactionTurns.PassedOverIfFirst | src/Duet/Network.cpp:470-496 | a connection that is not served by a send goes to the end of the line exactly if it was first; otherwise it moves up by one, or by two if the one served leaves |
| TransactionTurns.EveryoneHasATurn | src/Duet/Network.cpp:470-496 | over every run, whoever joins meanwhile: a connection that stays in line is served once as many sends have been made as connections were ever in line at once, and as many again for each that left the line |
| TransactionTurns.ServedWithin | src/Duet/Network.cpp:470-496 | the same with the number of transactions as the bound, which needs no assumption on the line |
| TransactionTurns.TurnsAreShared | src/Duet/Network.cpp:470-496 | over every run in which nobody joins or leaves, the number of turns of each connection is exactly the number of sends divided by the number in line, up to its place at the start and at the end |
| TransactionTurns.OneTurnEach | src/Duet/Network.cpp:470-496 | so as many sends as connections in line serve each exactly once |
| TransactionTurns.TurnServes | src/Duet/NetworkTransaction.cpp:264-360 | a connection that has its turn is given the next bytes of its first transaction, which keeps the rest; with none left the transaction is freed and the next follows, or it is asked to close the connection; if it was asked to, the connection is closed; no other connection is given anything or changes its queue |
| TransactionStarving.SkippedInRound | src/Duet/Network.cpp:470-496 | three sends with three in line and nobody joining need not serve the first |
| TransactionStarving.ThreeFromStart | src/Duet/Network.cpp:470-496 | there may be such three soon after start-up |
| TransactionStarving.NeverServed | src/Duet/Network.cpp:470-496 | for every number of sends there is a run with that many in which one connection waits with unchanged output and is not served, while another's empty answers are |
| TransactionStarving.StarvesFromStart | src/Duet/Network.cpp:470-496 | so for a connection that has been waiting since start-up |
| TransactionEnds.GoodbyeCloses | src/Duet/Network.cpp:730-761 | a client that closes its connection is announced by the last ready transaction; discarding that closes the connection, with nothing of it left in the ready and writing lists |
| TransactionEnds.CommitEnds | src/Duet/NetworkTransaction.cpp:364-458 | a commit puts its transaction last in the queue; if it does not keep the connection alive it takes exactly that connection's other ready transactions away and clears its flag to persist, otherwise none |
| TransactionEnds.KeptAlive | src/Duet/NetworkTransaction.cpp:313-330 | over every run in which its client does not leave and every answer keeps it alive a connection stays open |
| TransactionEnds.OpenUntilItEnds | src/Duet/NetworkTransaction.cpp:313-458 | so it does from its acceptance on, at any time after start-up |
| TransactionOrder.ArrivesLast | src/Duet/Network.cpp:573-618 | what arrives on a connection comes after everything that is ready for it, and changes nothing for others |
| TransactionOrder.OldestFirst | src/Duet/Network.cpp:912-943 | getting a transaction finds the oldest of the connection, and keeps the order of every connection's |
| NetworkQueues.Network.constructor | src/Duet/Network.cpp:266-285 | 24 free transactions in memory, the start of every run |
| NetworkQueues.Network.ReceiveInput | src/Duet/Network.cpp:573-589 | the lists in memory make the receive step; fails exactly when no transaction is free |
| NetworkQueues.Network.ConnectionAccepted | src/Duet/Network.cpp:592-618 | they make the accept step; refuses without a free connection or transaction |
| NetworkQueues.Network.ConnectionClosedGracefully | src/Duet/Network.cpp:730-761 | they make the graceful close step |
| NetworkQueues.Network.AcquireTransaction | src/Duet/Network.cpp:1056-1085 | they make the acquire step; success means that the head of the ready list is an acquired transaction of the connection |
| NetworkQueues.Network.GetTransaction | src/Duet/Network.cpp:912-943 | they make the get step; what is returned is at the front afterwards and belongs to the connection, and nothing is returned only if there is none |
| NetworkQueues.Network.ConnectionClosed | src/Duet/Network.cpp:621-726 | the pointer loops over the ready list and the queue leave exactly the closed state of the model, with the lists linked |
| NetworkQueues.Network.DropReady | src/Duet/Network.cpp:670-684 | the loop that discards a connection's ready transactions, in list order, skipping one that is only unlinked |
| NetworkQueues.Network.ReleaseQueue | src/Duet/Network.cpp:686-721 | the loop that discards a connection's queue, the sending transaction last |
| NetworkQueues.Network.Release | src/Duet/NetworkTransaction.cpp:554-587 | a transaction leaves the ready list if it is there, joins the end of the free list, and has no output left |
| NetworkQueues.FindAndMove | src/Duet/Network.cpp:928-941 | the first transaction of a connection moves to the front and the others keep their order |
| TransactionSteps.DiscardTransaction | src/Duet/NetworkTransaction.cpp:545-599 | the discard step, which closes the connection if the transaction announced its end |
| TransactionSteps.DeferTransaction | src/Duet/NetworkTransaction.cpp:470-540 | the defer step |
| TransactionSteps.CommitTransaction | src/Duet/NetworkTransaction.cpp:364-458 | the commit step: unlinking, giving up the connection's other ready transactions if it is not kept alive, and queueing |
| TransactionSteps.EnqueueLast | src/Duet/NetworkTransaction.cpp:443-457 | the transaction is last in its connection's queue, and on the writing list if it is the only one |
| TransactionSteps.PreparingFacts | src/Duet/NetworkTransaction.cpp:400-438 | while a connection is connected none of its ready transactions announces its end, so giving them up closes nothing |
| TransactionSending.FillWindow | src/Duet/NetworkTransaction.cpp:273-312 | the window is the next bytes of the output (chain, stacked chains in push order, file), at most `TCP_WND` of them; it is filled: all of the output is in it or less than four bytes of it are unused |
| TransactionSending.Send | src/Duet/NetworkTransaction.cpp:264-360 | fills a window, or closes the connection, or asks for that, or passes the turn on, exactly as the model's send step |
| TransactionSending.Spin | src/Duet/Network.cpp:470-496 | nothing happens while a window is unacknowledged; otherwise the writing list rotates and the next transaction makes a send step, with a prefix of its output that is all of it or a full window; whose turn that is, and how long others wait, is the subject of TransactionTurns |
| TransactionSending.ConnSent | src/Duet/NetworkTransaction.cpp:77-97 | the acknowledge step |
| TransactionSending.ConnectionLost | src/Duet/Network.cpp:621-726 | the step of a connection that goes down; no announcement of its end can be queued then |
| TransactionSending.WriteText | src/Duet/NetworkTransaction.cpp:197-208 | output of a ready transaction grows at the end of its chain, if the connection is still there |
| TransactionSending.WriteChain | src/Duet/NetworkTransaction.cpp:210-223 | a chain is stacked behind the others, if the stack has room |
| TransactionSending.SetFileToWrite | src/Duet/NetworkTransaction.cpp:251-261 | the file is sent after everything else |
| NetworkRuns.Run | src/Duet/Network.cpp:266-1085 | whatever operations the TCP stack, the clients and the network's loop perform on a network in memory, from start-up on: it makes a run of the model with one step for each operation that finds its connection or transaction, ends where that run leads, and the TCP stack is given exactly what the run delivers, for each connection the bytes of `Gifts` |
| NetworkRuns.Perform | src/Duet/Network.cpp:416-1085 | any one operation makes the step it stands for, or none if what it names is not there, and says what the TCP stack was given for which connection |
| NetworkRuns.DeliveriesAreGifts | src/Duet/NetworkTransaction.cpp:264-360 | over every run the bytes delivered for a connection are those that its steps give it, in order |
| NetworkRuns.OpenConnections | src/Duet/Network.cpp:592-726 | no step but accepting a connection opens one |
| FilamentReceiver.Step | src/FilamentMonitors/Duet3DFilamentMonitor.cpp:72-204 | on arbitrary edge times one pass never reads past the recorded edges, makes progress, and an error or a word uses up an edge |
| FilamentReceiver.Poll | src/FilamentMonitors/Duet3DFilamentMonitor.cpp:62-205 | so does a call: it ends, and each complete or error result strictly reduces the unread edges |
| FilamentReceiver.Drain | src/FilamentMonitors/RotatingMagnetFilamentMonitor.cpp:119-161 | so the drain loop ends, with no more results than edges |
| FilamentReceiver.ReadsSlots | src/FilamentMonitors/Duet3DFilamentMonitor.cpp:144-164 | with every edge within 1/32 bit of its time, each of the five samples is the level of its slot, for every bit length in the limits |
| FilamentReceiver.NibbleRead | src/FilamentMonitors/Duet3DFilamentMonitor.cpp:137-193 | a nibble that is due is decoded to its four bits, with a good stuffing bit |
| FilamentReceiver.StepTracks | src/FilamentMonitors/Duet3DFilamentMonitor.cpp:72-204 | on a transmission no pass reports an error, and a word is exactly the next one sent |
| FilamentReceiver.ReadLiveSame | src/FilamentMonitors/Duet3DFilamentMonitor.cpp:144-164 | the sampling loop, which reads the write pointer again for each sample, gives the same samples on a transmission whatever edges are recorded meanwhile and whatever the ring holds behind them |
| FilamentReceiver.StepLiveSame | src/FilamentMonitors/Duet3DFilamentMonitor.cpp:72-204 | so a pass during which edges are recorded is the pass of the specification |
| FilamentReceiver.IdleWhenCaughtUp | src/FilamentMonitors/Duet3DFilamentMonitor.cpp:104-193 | the poller goes idle only when no whole frame is waiting |
| FilamentFrames.ReadsLevels | src/FilamentMonitors/Duet3DFilamentMonitor.cpp:144-164 | on any edges at all the samples are the levels of the line in the middle of the bits, and a glitch is found exactly if there is more than one edge between two of them |
| FilamentFrames.FaultsAreErrors | src/FilamentMonitors/Duet3DFilamentMonitor.cpp:72-204 | a pass goes into recovery if and only if the line was not idle long enough before a start bit, the start bit is too short, too long or not over in time, or the five levels have a glitch or a fifth that is not the inverse of the fourth; the call then reports an error |
| FilamentFrames.WordsAreGenuine | src/FilamentMonitors/Duet3DFilamentMonitor.cpp:28-205 | over every run on any line, each word reported stands for an idle line, a start bit within the limits and four clean nibbles with good stuffing bits, and is the word of their levels |
| FilamentFrames.LonePulseFails | src/FilamentMonitors/Duet3DFilamentMonitor.cpp:28-205 | a pulse of the length of a start bit and nothing after it is reported as an error |
| FilamentReceiver.PollTracks | src/FilamentMonitors/Duet3DFilamentMonitor.cpp:62-205 | a call on a transmission returns the next word, or incomplete when none is overdue, and never an error |
| FilamentReceiver.DrainTracks | src/FilamentMonitors/RotatingMagnetFilamentMonitor.cpp:119-161 | draining returns the words in order up to the first that is not yet due |
| FilamentReceiver.BitsSpellWord | src/FilamentMonitors/Duet3DFilamentMonitor.cpp:180-189 | every 16-bit word has bits that the receiver's arithmetic turns back into it |
| FilamentReceiver.LateEndOfStartBitFails | src/FilamentMonitors/Duet3DFilamentMonitor.cpp:106-135 | if the end of a start bit can be seen later than the time-out, there is a poll that gives up on it |
| FilamentReceiver.LateRunFails | src/FilamentMonitors/Duet3DFilamentMonitor.cpp:28-135 | that state is reached from start-up by a pin change and passes that see every edge in time, with a start bit whose length is within the limits, and the next pass reports an error |
| FilamentReceiver.Receiver.constructor | src/FilamentMonitors/Duet3DFilamentMonitor.cpp:20-25 | the ring holds one pretended edge and the poller waits for a start bit |
| FilamentReceiver.Receiver.Interrupt | src/FilamentMonitors/Duet3DFilamentMonitor.cpp:28-59 | an edge of the right polarity is added to the history, a falling one corrected by 40 ticks; others are ignored |
| FilamentReceiver.Receiver.AwaitingStartBit | src/FilamentMonitors/Duet3DFilamentMonitor.cpp:80-104 | the ring code makes the pass of the specification on the edge history |
| FilamentReceiver.Receiver.AwaitingEndOfStartBit | src/FilamentMonitors/Duet3DFilamentMonitor.cpp:106-135 | so does this state, time-out included |
| FilamentReceiver.Receiver.SampleNibble | src/FilamentMonitors/Duet3DFilamentMonitor.cpp:144-164 | the sampling loop over the ring reads what the specification reads from the history, glitches included |
| FilamentReceiver.Receiver.AwaitingNibble | src/FilamentMonitors/Duet3DFilamentMonitor.cpp:137-193 | and so does decoding a nibble, errors included (FaultsAreErrors says which those are) |
| FilamentReceiver.Receiver.Pass | src/FilamentMonitors/Duet3DFilamentMonitor.cpp:72-204 | one pass of the loop on the ring, with its own clock reading and the edges recorded by then, is one pass on the history, across ring and clock wrap-around |
| FilamentReceiver.Receiver.PollReceiveBuffer | src/FilamentMonitors/Duet3DFilamentMonitor.cpp:62-205 | a call during which no edge comes is the passes of a call on the history, with its result |
| FilamentReceiver.Receiver.HandleIncomingData | src/FilamentMonitors/RotatingMagnetFilamentMonitor.cpp:119-161 | the drain loop on the ring is the drain of the history |
| FilamentReceiver.NextFollows | src/FilamentMonitors/Duet3DFilamentMonitor.cpp:28-205 | every pin change and every pass keeps to the transmission; a pass that goes idle has missed nothing that is due |
| FilamentReceiver.RunFollows | src/FilamentMonitors/Duet3DFilamentMonitor.cpp:28-205 | over every run of pin changes and passes, each at its own time, the words reported are the first words sent, in order and without errors; after an idle pass none that is due is missing |
| FilamentReceiver.Receive | src/FilamentMonitors/Duet3DFilamentMonitor.cpp:28-205 | the ring code reports exactly what that run reports, on arbitrary edge times, and stops exactly at the first pin change that finds the ring full; on a transmission those are the words sent |
| GCodeLines.CommandsJoin | src/GCodes/GCodeBuffer.cpp:290-404 | the commands of a line are consecutive and make up the line |
| GCodeLines.Commands | src/GCodes/GCodeBuffer.cpp:290-404 | none of them is empty |
| GCodeLines.StartsAre | src/GCodes/GCodeBuffer.cpp:333-353 | a position after the first starts a command if and only if the line starts with a command letter and there is a G or M there, after a space or tab, with an even number of quotes before it |
| GCodeLines.LaterCommands | src/GCodes/GCodeBuffer.cpp:333-353 | every later command starts with G or M after an unquoted space or tab, and with the rest of the line |
| GCodeLines.UnquoteDoubled | src/GCodes/GCodeBuffer.cpp:610-643 | reading a quoted string undoes the doubling of quotes, for every printable string |
| GCodeLines.FeedLine | src/GCodes/GCodeBuffer.cpp:91-235 | a command with a quoted parameter is stored whole, whatever the string contains |
| GCodeLines.LineIsOneCommand | src/GCodes/GCodeBuffer.cpp:290-361 | it is one command, its parameter is found where it is, and its string reads back |
| GCodeLines.SeenIsFirst | src/GCodes/GCodeBuffer.cpp:418-435 | the search for a parameter finds the first unquoted occurrence of its letter |
| GCodeTexts.ChecksumIs | src/GCodes/GCodeBuffer.cpp:91-235 | the checksum of a text is the byte each of whose bits is set exactly if it is set in an odd number of characters |
| GCodeTexts.PartsKept | src/GCodes/GCodeBuffer.cpp:91-235 | code and quoted strings are stored as they are, bracketed comments are not, and all of it goes into the checksum |
| GCodeTexts.LineRead | src/GCodes/GCodeBuffer.cpp:91-235 | of any line written as an optional number, code, strings and comments in any order, and a final comment or checksum, exactly the code and strings are stored; number and checksum are those written, modulo 2^32; the checksum computed is that of everything before the final part |
| GCodeTexts.LineAccepted | src/GCodes/GCodeBuffer.cpp:239-285 | such a line is accepted if and only if something of it is kept, it fits, and the checksum written is the exclusive or, bit by bit, of the characters before it, or there is none and none is needed |
| GCodeTexts.SpoiltLine | src/GCodes/GCodeBuffer.cpp:103-108 | a receiver error anywhere before the part that is dropped makes the line neither accepted nor asked for again |
| GCodeTexts.WordDecoded | src/GCodes/GCodeBuffer.cpp:297-331 | G, M or T in either case, with a sign, a number and a digit of fraction, is decoded to exactly these, whatever follows |
| GCodeTexts.SplitsAsWritten | src/GCodes/GCodeBuffer.cpp:333-404 | commands written one after the other on a line are found again, each as written |
| GCodeTexts.ShoutedReads | src/GCodes/GCodeBuffer.cpp:610-643 | a string written in capitals, with a single quote before each that stands for a small letter, reads back |
| GCodeTexts.UnendedString | src/GCodes/GCodeBuffer.cpp:610-643 | a string without a closing quote cannot be read |
| GCodeBuffers.GCodeBuffer.constructor | src/GCodes/GCodeBuffer.cpp:32-40 | an empty line |
| GCodeBuffers.GCodeBuffer.FeedOnce | src/GCodes/GCodeBuffer.cpp:111-231 | a character in one state has the effect of the specification, now or when looked at again in a later state |
| GCodeBuffers.GCodeBuffer.Put | src/GCodes/GCodeBuffer.cpp:91-235 | a character is added to the line, or ends it: then a command is ready if and only if the line is accepted or has a number and a wrong checksum, the first command of the line or the request to resend that number; otherwise the buffer starts afresh |
| GCodeBuffers.GCodeBuffer.LineFinished | src/GCodes/GCodeBuffer.cpp:239-285 | a line that fits, with a good checksum or none where none is needed, has its first command ready; a numbered one with a wrong checksum is replaced by the command M998 with that number, decoded; in all other cases, and only then, nothing is ready and the buffer starts afresh |
| GCodeBuffers.PutText | src/GCodes/GCodeBuffer.cpp:364-376 | whatever is in the buffer, a text is read as one line from the start, and what is ready after it is as for that line |
| GCodeBuffers.GCodeBuffer.DecodeNumber | src/GCodes/GCodeBuffer.cpp:297-331 | whether there is a number after the command letter, its value with its sign, the digit of its fraction, and where the parameters start |
| GCodeBuffers.GCodeBuffer.FindEnd | src/GCodes/GCodeBuffer.cpp:333-353 | the search with its two flags stops at the next position that splits the line, or at its end |
| GCodeBuffers.GCodeBuffer.DecodeCommand | src/GCodes/GCodeBuffer.cpp:290-361 | letter, number, fraction, parameters and end of the command at a position |
| GCodeBuffers.GCodeBuffer.SetFinished | src/GCodes/GCodeBuffer.cpp:384-404 | the next command of the line is ready, or the line is over |
| GCodeBuffers.GCodeBuffer.Seen | src/GCodes/GCodeBuffer.cpp:418-435 | found exactly if the letter occurs unquoted in the parameters, and then at its first occurrence |
| GCodeBuffers.GCodeBuffer.GetQuotedString | src/GCodes/GCodeBuffer.cpp:596-607 | the quoted string after the letter, or failure if there is none |
| GCodeBuffers.GCodeBuffer.InternalGetQuotedString | src/GCodes/GCodeBuffer.cpp:610-643 | the loop reads exactly the string of the specification, and fails exactly if it is not ended |
| GCodeBuffers.RunLine | src/GCodes/GCodeBuffer.cpp:384-404 | executing a line to its end makes ready exactly its commands, in order |
| GCodeBuffers.ReadBack | src/GCodes/GCodeBuffer.cpp:91-643 | from any state of the buffer, feeding a command with a quoted parameter leaves the buffer decoded as that one command, and reading the parameter gives the string that was quoted |
| HttpQueries.QueryRoundTrip | src/Duet/Webserver.cpp:1158-1340 | every request line that fits, with a file name and up to five pairs of plain keys and values, of arbitrary bytes, plain or escaped, or a plus for a space in a value, is accepted, and the file name and pairs found are exactly those |
| HttpQueries.ParsePairs | src/Duet/Webserver.cpp:1240-1304 | the same for any number of pairs already read and still to come |
| HttpQueries.ParseUnit | src/Duet/Webserver.cpp:1197-1340 | a plain or escaped byte is stored as that byte, in a file name also a plus or an ampersand; in a value a plus is stored as a space |
| HttpQueries.LookupFinds | src/Duet/Webserver.cpp:1035-1045 | looking up a key of the query gives the value of its first occurrence |
| HttpQueries.LookupMisses | src/Duet/Webserver.cpp:1035-1045 | a name that is not a key of the query is not found |
| HttpQueries.KeyRefused | src/Duet/Webserver.cpp:1240-1260 | a key that meets a blank, return, newline, percent sign or ampersand before an equals sign is refused |
| HttpQueries.EscapeRefused | src/Duet/Webserver.cpp:1306-1340 | a percent sign without two digits, or capital letters up to F, is refused in a file name and in a value |
| HttpQueries.PairRefused | src/Duet/Webserver.cpp:1262-1304 | a sixth pair is refused |
| HttpQueries.QueryRefused | src/Duet/Webserver.cpp:1158-1340 | so a whole request line is refused with any of these in its query, whatever good pairs come before it and whatever follows |
| HttpInterpreters.HttpInterpreter.ResetState | src/Duet/Webserver.cpp:1047-1055 | nothing of a request has been seen |
| HttpInterpreters.HttpInterpreter.DoCommandWord | src/Duet/Webserver.cpp:1162-1195 | the state machine in its buffers makes the step of the specification |
| HttpInterpreters.HttpInterpreter.DoFilename | src/Duet/Webserver.cpp:1197-1238 | so it does in the filename |
| HttpInterpreters.HttpInterpreter.DoQualifierKey | src/Duet/Webserver.cpp:1240-1260 | in a key |
| HttpInterpreters.HttpInterpreter.DoQualifierValue | src/Duet/Webserver.cpp:1262-1304 | in a value |
| HttpInterpreters.HttpInterpreter.CharFromClient | src/Duet/Webserver.cpp:1158-1340 | for each character: the step of the specification, or rejection and a fresh state exactly if it has none or the buffer is full |
| HttpInterpreters.HttpInterpreter.GetKeyValue | src/Duet/Webserver.cpp:1035-1045 | the loop finds what the specification looks up |
| HttpInterpreters.ReadRequest | src/Duet/Webserver.cpp:1158-1340 | after a request line has been fed in, the buffers hold exactly its file name and pairs |
| SoftTimers.SignedIs | src/SoftTimer.cpp:26-37 | tick counts less than half the clock's range apart compare like the times they stand for |
| SoftTimers.TimerQueue.ScheduleSoftTimerInterrupt | src/Platform.cpp:4587-4609 | the compare register is armed for the time, unless it is less than the minimum interval ahead, whatever that is for the board |
| SoftTimers.TimerQueue.ScheduleCallback | src/SoftTimer.cpp:19-50 | the list in memory with the timer in front of the first that is not due earlier, and the hardware re-armed if it is the first; refused exactly if it is first and imminent |
| SoftTimers.TimerQueue.CancelCallback | src/SoftTimer.cpp:53-65 | the list in memory without the timer, the others in their order, and the hardware as it was |
| SoftTimers.PlaceKeeps | src/SoftTimer.cpp:41-47 | placing a timer keeps a sorted list sorted, and says which is first |
| SoftTimers.PlaceTimers | src/SoftTimer.cpp:41-47 | nothing is lost or repeated by it |
| SoftTimers.RemoveTimers | src/SoftTimer.cpp:53-65 | nothing but the timer itself is lost by taking it out |
| SoftTimers.TimerQueue.Take | src/SoftTimer.cpp:82-95 | the first timer leaves the list exactly if it is due less than the minimum interval ahead; otherwise the hardware is armed for it |
| SoftTimers.TimerQueue.CallAgain | src/SoftTimer.cpp:96-106 | the timer is put back where it belongs, for the tick count its callback asks for |
| SoftTimers.TimerQueue.Round | src/SoftTimer.cpp:82-112 | one round of the routine in memory is one round on the list as a value |
| SoftTimers.ServeKeeps | src/SoftTimer.cpp:80-113 | an interrupt makes a callback at each of the first clock readings, to the timer that is due first and only if that is less than the minimum interval ahead; it ends at the first reading at which every timer is at least that far ahead, with the hardware armed for the first, or when none is left; if it has not ended, it has made a callback at every reading |
| SoftTimers.ServeConserves | src/SoftTimer.cpp:80-113 | as multisets: what is pending after an interrupt and what was called back is what was pending before it and what the callbacks asked for |
| SoftTimers.TimerQueue.Interrupt | src/SoftTimer.cpp:80-113 | the loop in memory makes exactly those callbacks and leaves exactly that list, however the callbacks reply |
| SoftTimers.StepInTime | src/SoftTimer.cpp:19-113 | scheduling, cancelling and an interrupt that has ended keep the list sorted and without repetition, and the hardware armed no later than the first timer is due |
| SoftTimers.InTimeOverRuns | src/SoftTimer.cpp:19-113 | so does every run, however often the clock wraps around: only the times compared by one operation need share a half of its range |
| SoftTimers.Run | src/SoftTimer.cpp:19-113 | after every run the list in memory and the compare register are those the run leads to, and every caller has been told rightly whether its callback is imminent |
| ZProbePrograms.ZProbeProgrammer.SendProgram | src/ZProbeProgrammer.cpp:22-41 | the line is low from the start and the first callback is due after two bit times |
| ZProbePrograms.ZProbeProgrammer.NextBit | src/ZProbeProgrammer.cpp:43-84 | the level set by each of the 13 callbacks of a byte |
| ZProbePrograms.ZProbeProgrammer.Interrupt | src/ZProbeProgrammer.cpp:43-95 | up to the next callback the line follows the frames; the next callback is due at its slot; the last one leaves the line right for good |
| ZProbePrograms.Continues | src/ZProbeProgrammer.cpp:45-84 | callback i of byte j makes the line right up to the next callback |
| ZProbePrograms.FrameReadsBack | src/ZProbeProgrammer.cpp:45-84 | the frame of a byte is well-formed (start bits, each nibble followed by the inverse of its last bit) and its data bits, weighted by their places, make up the byte |
| ZProbePrograms.WaveReadsBack | src/ZProbeProgrammer.cpp:45-84 | whoever reads the line slot by slot gets the bytes of the program |
| ZProbePrograms.ServeReading | src/ZProbeProgrammer.cpp:43-95 | at a clock reading of the interrupt routine the next callback is made exactly if it is due less than the minimum interval ahead, and the timer is pending for the one after it |
| ZProbePrograms.BetweenReadings | src/ZProbeProgrammer.cpp:43-95 | in clock time: from the reading at which callback c is made, early or late, to the next one the line is at the level of its slot, and low before the first |
| ZProbePrograms.TimesOrdered | src/SoftTimer.cpp:80-113 | callbacks are made at some of the readings, in their order |
| ZProbePrograms.AllMade | src/SoftTimer.cpp:80-113 | if each interrupt comes when the next callback is due or later, each makes it |
| ZProbePrograms.Transmit | src/ZProbeProgrammer.cpp:22-95 | for every non-empty program and every sequence of interrupts, driven by the timer list: callback i of byte j is made for start + (14j + i + 2) bit times modulo 2^32, each edge carries the clock reading at which it was made, up to the next callback the level in every slot is that of the frames, and after exactly 13 callbacks a byte nothing is pending and the line has followed all frames and stays low |
| DotStarLeds.DotStar.SetColours | src/Fans/DotStarLed.cpp:54-138 | nothing while a transfer is under way or nothing was asked for; otherwise one transfer is added to the history: at least one of the LEDs, after a start word if one is needed, with the stop words if nothing remains or follows, and at most 30 words; while a transfer is under way the buffer starts with its words |
| DotStarLeds.DotStar.SendChunk | src/Fans/DotStarLed.cpp:90-125 | the content of that chunk and the new state |
| DotStarLeds.Fits | src/Fans/DotStarLed.cpp:99-110 | there is always room for some of the LEDs |
| DotStarLeds.FrameReadsBack | src/Fans/DotStarLed.cpp:119 | the bytes of an LED frame, first to last as they are sent, are the brightness with its three marker bits, blue, green and red |
| DotStarLeds.SameFrames | src/Fans/DotStarLed.cpp:119 | two colours have the same frame if and only if they agree in what is shown of each part |
| DotStarLeds.StopWordsAre | src/Fans/DotStarLed.cpp:100 | the stop words are the fewest with half a bit for each LED, or as many as there is room for |
| DotStarLeds.SendCommand | src/Fans/DotStarLed.cpp:54-138 | the transfers started for a command that is re-issued until it is finished have exactly the words of its LEDs |
| DotStarLeds.SendStrip | src/Fans/DotStarLed.cpp:54-138 | the transfers started for chained commands have, one after the other, exactly the words: one zero word, the frames of all LEDs in order, and min(ceil(N/64), 29) zero words; each is at most 30 words and has an LED in it |

## Left out

- The TCP stack, protocol control blocks, files, DMA, pins and registers are inputs and outputs; writes to the TCP stack are accepted and file reads succeed.
- NetworkQueues.Network.ConnectionClosed: requires that no transaction announcing the end of the connection is still in the ready list, because discarding one there would close the connection a second time.
- TransactionSending.Spin: requires the same of a sender about to close a connection.
- TransactionSending.Send: requires the same.
- NetworkRuns.Run: an operation of the TCP stack or a client names a connection that still has its control block; the sender is not run while it would close a connection whose end is still announced; an accepted connection is a new object, where the code reuses a free one.
- TransactionSteps.DeferTransaction: what the three modes do to the data that has been read so far is not modelled, only the place of the transaction.
- NetworkQueues.Network.ConnectionAccepted: the list of free connection states is not modelled; a free one, or none, is a parameter.
- TransactionSending.FillWindow: the chains being sent are sequences of unread bytes here; how buffers go back to the pool is modelled in OutputMemory.
- TransactionSending.WriteText: the pool is not exhausted while output is being written.
- FilamentReceiver.Receive: stops at the pin change that finds the ring of edge times full; what the code does after overwriting it is not modelled. A pass reads the write pointer and the clock once each (on a transmission edges that come during one change nothing, StepLiveSame), and on a transmission the line is idle for less than the range of the clock between words.
- FilamentReceiver.Receiver.Interrupt: the ring is not full, as above.
- FilamentReceiver.Receiver.Pass: an edge recorded during a pass is seen by the next one, as above.
- FilamentReceiver.Receiver.AwaitingNibble: the same.
- FilamentReceiver.Receiver.SampleNibble: the same; on the edge history the second reading of the write pointer is SampleLive.
- FilamentReceiver.PollTracks: one clock reading and no edges during a call; RunFollows states it for passes that each have their own.
- FilamentReceiver.DrainTracks: the same, for the drain loop.
- FilamentReceiver.Receiver.PollReceiveBuffer: the same, on the ring; Pass is one pass with its own reading, and Receive any interleaving of passes and edges.
- FilamentReceiver.Receiver.HandleIncomingData: the same, on the ring.
- OutputMemory.Pool.ReleaseAll: for a chain with one holder; several holders, in any interleaving, are the subject of ReleaseByHolders.
- OutputMemory.Pool.Copy: for a chain with one holder, as in every use: the code empties the buffers of whoever else holds them.
- OutputEncoder.EncodeReply: the encoded chain has one holder.
- OutputClients.Run: all chains have one holder; sharing is modelled separately.
- HttpInterpreters.HttpInterpreter.DoCommandWord: a fifth word on the line, whose pointer has no place, is excluded.
- HttpInterpreters.HttpInterpreter.DoFilename: the same.
- HttpInterpreters.HttpInterpreter.CharFromClient: stops at the end of the first line, and a fifth word on it, whose pointer has no place, is excluded; headers, sessions and processing of requests are not modelled.
- GCodeBuffers.GCodeBuffer.DecodeNumber: command numbers do not wrap around.
- SoftTimers.Run: an interrupt goes on until it has ended, a timer that is scheduled is not pending (the code demands that), and callbacks do not schedule other timers.
- ZProbePrograms.Transmit: the probe's timer is the only one.
- DotStarLeds.SendStrip: each command is for at least one LED, and their number is at least 63 below 2^32.
- Reading a character of a chain by its index, the output stack's own methods, message fan-out to individual destinations.
- FTP and Telnet, status reports, motion, heating, fans, displays and everything else that needs hardware.
