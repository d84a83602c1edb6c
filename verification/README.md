# Verified model of the vocal calculator

The vocal calculator is a desktop calculator that speaks Chinese numbers and that can run its keys on another
machine. This project models the parts of it that are hard to get right and proves what they promise, for every key
sequence, every numeral, every message schedule and every interleaving.

* **Calculator engine** (`Calculator.dfy`, `CalculatorRuns.dfy`, `CalculatorKeys.dfy`, over `Tokens.dfy` and
  `Numerals.dfy`). A five-phase immediate-execution machine with an editable text buffer, one pending operator,
  repeat-equals and memory. It refines a left-to-right evaluator.
* **Number speech** (`Speech.dfy`). The printer of recorded words, and a listener written for this project; the two
  undo each other for numerals of every length.
* **Remote execution** (`Router.dfy`, `RemoteExecution.dfy`, `RateLimit.dfy`). The router as a class, then two routers
  and a network that drops, delays, duplicates and reorders, in the presence of any other peers.
* **Sessions** (`Registry.dfy`, `CrossingConnections.dfy`, `Handshake.dfy`, `Heartbeat.dfy`, `NetworkManager.dfy`).
  Registration under interleaving, the tie-break for crossing connections, the mutual proof exchange, liveness timing,
  and the rule that an unconfirmed shutdown blocks a restart.
* **Bounded tables and WAV assembly** (`PeerTable.dfy`, `DiscoveryThrottle.dfy`, over `SetSizes.dfy`, and `Wav.dfy`).

Where the program updates fields in place the model is a class. Each of its methods is proved equal to a function of
the old state, and the whole-run theorems are proved about those functions, because lemmas cannot call methods.

Conventions. `Decimal` is `real`; the library's arithmetic, square root and display format are the fields `compute`,
`sqrt` and `show` of a record, about which nothing is assumed unless a lemma says so. Clocks are parameters: the
wall clock in milliseconds, the monotonic clock in nanoseconds. Whether a bounded channel takes a message is a
parameter too. Node ids are ordered numbers.

Things the proofs brought out:

* The action counter saturates. A key sent when it already stands at the largest 64-bit number goes out under a number
  that was used before. Until then confirmation by number is exact; after it the controller can look confirmed while
  showing its own guess (`RemoteExecution.AgreementFailsAtTheLastNumber`). `RemoteExecution.TwoNodeAgreement` holds at
  every number for a controller that has sent nothing since the snapshot, which a caller secures by not sending at the
  largest number.
* The one-second window lets through at most 239 actions of a peer in one second, one fewer than two full budgets,
  and 239 is reached (`RateLimit.RateBoundIsReached`).
* A registration that replaced a live session and then fails its hand-off restores that session only if the newcomer
  is still registered. Otherwise the old session, never cancelled, is lost to the registry
  (`SessionRegistry.PreviousCanBeLost`). In the opposite order a session that a failed send has already cancelled is
  put back (`SessionRegistry.DroppedCanReturn`).
* A later group of four digits that opens with zero is spoken with the filler zero and then "zero thousand"
  (`Speech.TailIsPlaceByPlace`). The listener still understands it.
* Backspace undoes a digit that opened an entry from rest or extended one, except after `-0`. A digit typed over a
  waiting operator or a result is not undone: 5 + 3 and backspace shows 0, not 5
  (`CalculatorKeys.BackspaceUndoesDigit`, `CalculatorKeys.BackspaceAfterOperatorShowsZero`).
* The root key and memory recall overwrite the accumulated value while an operator waits, so 9 + 16 √ and a further
  operator carry 4 + 4 along (`CalculatorKeys.RootMeaning`). The sign key after a memory key changes only the value
  behind the number on show (`CalculatorKeys.SignMeaning`).
* A display of more than 64 characters is one no controller takes over, so a long entry is never confirmed
  (`RemoteRouter.OwnViewAcceptableIff`).
* After a snapshot the local engine agrees with it only if a lit `M` meets a memory that is not zero locally
  (`CalculatorKeys.RestoredViewAgrees`).
* Joining WAV buffers compares channels, rate and depth, as its comment says, and not the audio format field, so
  integer and floating-point samples of one shape are joined under the first one's label
  (`Wav.IntegerAndFloatConcatenate`); the label fits every input exactly when those fields agree
  (`Wav.FormatKeptIffAudioFormatsAgree`).

## Model

| member | source | states |
|---|---|---|
| `CalculatorRuns.RefinesLeftFold` | src/core/calculator.rs:157-304 | From any error-free state without pending operator or markup, an operand, any chain of operator runs and operands (typed with erasures, and with abandoned attempts ended by C), and `=` show the left-to-right value with the last equation on the history line, or the error exactly when that fold divides by zero; each further `=` applies the last operator and operand once more |
| `CalculatorRuns.ContinuesTheFold` | src/core/calculator.rs:218-304 | From every well-formed error-free state, after a result, at rest or behind an operator, a chain that opens with an operator and `=` evaluate left to right over the value carried along, or fail exactly when what waits divides by zero |
| `CalculatorRuns.EqualsJoinsChains` | src/core/calculator.rs:157-304 | Two chains joined by `=` are one fold: the second goes on from what the first one shows |
| `CalculatorRuns.EqualsRightAfterOperator` | src/core/calculator.rs:272-304 | An operator and `=` with no operand use the carried value on both sides, each further `=` applies it again, and a zero divided by itself is the error |
| `CalculatorRuns.ChainAwaits` | src/core/calculator.rs:172-245 | Before the final `=`, the last operator still waits and reducing it gives the fold, or the engine is in error and the fold has no value |
| `CalculatorRuns.OperatorRun` | src/core/calculator.rs:218-245 | From any error-free state, a run of operator keys settles once what waited, keeps the last operator and leaves only the buffer, markup and history changed; the history line shows the value and that operator, except for a single key from rest |
| `CalculatorRuns.LinkStep` | src/core/calculator.rs:172-245 | An operator run and an operand reduce what waited and leave the new operator and operand waiting, or fail exactly when that reduction fails |
| `CalculatorRuns.TypingEntry` | src/core/calculator.rs:183-216 | Any digits, points, sign changes and erasures leave in the buffer the number that an independent reading of the keys gives, and touch nothing else; when the reading is silent, all being erased or down to a bare negative zero, the buffer is empty at rest or the state is as it was found |
| `CalculatorRuns.EntryStep` | src/core/calculator.rs:384-433 | Key by key the buffer and that reading move together; backspace falls back to rest exactly when the reading falls silent |
| `CalculatorRuns.TypingOperand` | src/core/calculator.rs:183-216 | The same after any abandoned attempts, each ended by C: only the last attempt counts |
| `CalculatorRuns.AttemptsAreForgotten` | src/core/calculator.rs:398-405 | Attempts ended by C leave the accumulator, pending operator, memory and history as they were |
| `CalculatorRuns.RepeatedEquals` | src/core/calculator.rs:265-304 | n further `=` iterate the last operator and operand n times and change only accumulator and history |
| `CalculatorRuns.EqualsIdles` | src/core/calculator.rs:265-283 | Without a remembered operator `=` changes nothing once evaluated |
| `CalculatorRuns.ErrorAbsorbs` | src/core/calculator.rs:183-473 | In error every key but AC is without effect |
| `CalculatorRuns.BufferAlwaysWellFormed` | src/core/calculator.rs:183-473 | After any mix of keys and remote snapshots the buffer is empty or a numeral; Input means non-empty; Idle and OpPending mean empty |
| `CalculatorRuns.KeysKeepBuffer` | src/core/calculator.rs:183-473 | Every run of keys keeps the buffer and phase well formed |
| `CalculatorRuns.NoBareMinus` | src/core/calculator.rs:384-433 | In every reachable state, and after a backspace or sign change from it, the buffer is not a bare minus |
| `CalculatorRuns.MemoryIsSignedSum` | src/core/calculator.rs:435-473 | After any keys, memory is the signed sum of the operands at the effective M+ and M- since the last effective MC or AC, and `M` is shown exactly when that sum is not zero |
| `CalculatorRuns.LedgerBalances` | src/core/calculator.rs:448-473 | The same for inexact arithmetic: memory is the ledger posted entry by entry with the library's own operations |
| `CalculatorKeys.PercentMeaning` | src/core/calculator.rs:332-352 | With exact arithmetic, % means a raised or lowered by b percent, b percent of a, or a as b percent of the result; it fails exactly when dividing by zero percent |
| `CalculatorKeys.MarkupMeaning` | src/core/calculator.rs:306-363 | Cost, MU, rate, % give the price whose margin is the rate and say so on the history line, fail exactly at 100 percent; the next `=` gives the profit and a further one nothing |
| `CalculatorKeys.BackspaceUndoesDigit` | src/core/calculator.rs:384-396 | In every well-formed state backspace undoes a typed digit if and only if the digit was ignored in error, opened an entry from rest, or extended an entry other than `-0` |
| `CalculatorKeys.BackspaceAfterOperatorShowsZero` | src/core/calculator.rs:384-396 | Over a waiting operator or a result, digit and backspace leave an empty buffer at rest and show 0 in place of the value |
| `CalculatorKeys.SignTwice` | src/core/calculator.rs:413-433 | The sign key is its own inverse in every reachable state |
| `CalculatorKeys.RecallMeaning` | src/core/calculator.rs:435-446 | MR brings the ledger's sum back as the operand and on the display, and keeps the waiting operator and the repeat operator |
| `CalculatorKeys.RestoredViewAgrees` | src/core/calculator.rs:90-149 | After a snapshot the engine would show that same snapshot if and only if its number prints back as written and a lit M meets a non-zero local memory |
| `CalculatorKeys.SnapshotStartsOver` | src/core/calculator.rs:90-115 | After a snapshot `=` changes nothing, a chain goes on from the number shown, and an error stays until AC |
| `CalculatorKeys.RootMeaning` | src/core/calculator.rs:365-382 | The root replaces the operand, negative and unrepresentable roots fail with their own texts, and an operator that waited is then applied to the root twice |
| `CalculatorKeys.MemoryKeysEndTheEntry` | src/core/calculator.rs:448-473 | M+, M- and MC leave operand and calculation alone, and the next digit opens a new entry |
| `CalculatorKeys.SignMeaning` | src/core/calculator.rs:413-433 | The sign key negates the operand, except for a number kept on show by a memory key, where only the accumulator behind it changes |
| `CalculatorKeys.AllClearForgets` | src/core/calculator.rs:407-411 | Whatever came before AC, what follows is what follows from a new engine |
| `CalculatorEngine.Calculator.constructor` | src/core/calculator.rs:48-67 | A new engine is the fresh state |
| `CalculatorEngine.Calculator.DisplayValue` | src/core/calculator.rs:117-123 | The operand is the buffer's decimal value, or the accumulator when there is none |
| `CalculatorEngine.Calculator.Result` | src/core/calculator.rs:125-149 | What is shown, as the function the run theorems speak of |
| `CalculatorEngine.Calculator.EnterError` | src/core/calculator.rs:151-155 | Only phase and history change, to the error and its text |
| `CalculatorEngine.Calculator.OnDigit` | src/core/calculator.rs:183-196 | The new state, whole, as the digit function that `TypingEntry` reads back |
| `CalculatorEngine.Calculator.OnDecimalPoint` | src/core/calculator.rs:198-216 | The new state, whole, for the point key |
| `CalculatorEngine.Calculator.OnOperator` | src/core/calculator.rs:218-245 | The new state, whole, including the failing division |
| `CalculatorEngine.Calculator.OnEquals` | src/core/calculator.rs:247-304 | The new state, whole, in the profit, repeat, pending and idle cases |
| `CalculatorEngine.Calculator.OnPercent` | src/core/calculator.rs:306-352 | The new state, whole, in the markup and percent cases |
| `CalculatorEngine.Calculator.OnSquareRoot` | src/core/calculator.rs:365-382 | The new state, whole, with both failures |
| `CalculatorEngine.Calculator.OnBackspace` | src/core/calculator.rs:384-396 | The new state, whole, with the wiped remainders |
| `CalculatorEngine.Calculator.OnPlusMinus` | src/core/calculator.rs:413-433 | The new state, whole: buffer edit or negated accumulator |
| `CalculatorEngine.Calculator.Dispatch` | src/core/calculator.rs:354-494 | Every action gives the state of the action function and returns what that state shows |
| `CalculatorEngine.Calculator.ResetFromSnapshot` | src/core/calculator.rs:90-115 | The new state after an authoritative snapshot, with memory kept or zeroed by the indicator |
| `Speech.SpeechRoundTrip` | src/core/speech.rs:73-235 | For every numeral of any length, listening to what is spoken for its normalized form gives back sign, whole value and fraction digits without trailing zeros |
| `Speech.ListenUndoesSpeak` | src/core/speech.rs:73-110 | The same for a numeral spoken as it stands |
| `Speech.HeardInteger` | src/core/speech.rs:115-235 | Any digits, with any leading zeros, are heard as their value: units and fillers up to twelve digits, positional beyond |
| `Speech.SoundsDistinct` | src/core/speech.rs:73-235 | Distinct canonical numerals never sound the same |
| `Speech.IntegerIsPlaceByPlace` | src/core/speech.rs:115-235 | For every run of digits the words are a reading stated with the recordings' own numbers: the bare ten for 10 to 19 alone and nowhere else, every closed group with its first digit said, one zero for each inner gap, one in front of a tail that opens with zero, and digit by digit beyond twelve |
| `Speech.SpokenReading` | src/core/speech.rs:73-110 | The whole utterance: the sign's recording, that reading, the point's recording and the digits |
| `Speech.NormalizeKeepsNumeral` | src/core/format.rs:6-17 | Normalizing drops trailing fraction zeros, and the point with them, and nothing else |
| `Speech.GroupIsPlaceByPlace` | src/core/speech.rs:176-235 | A group is its first digit with its unit, the bare ten for a leading 10 to 19, and then a uniform place-by-place reading: one zero for each gap that a digit follows |
| `Speech.TailIsPlaceByPlace` | src/core/speech.rs:152-182 | What follows 万 is nothing for four zeros, and otherwise all four places with the thousands always said, so that an opening zero is said as zero, zero, thousand |
| `Speech.SpeakTensAndOnes` | src/core/speech.rs:203-216 | Appends the tens and ones with their filler |
| `Speech.SpeakBelowThousand` | src/core/speech.rs:183-201 | Appends hundreds, tens and ones with their fillers |
| `Speech.SpeakGroup` | src/core/speech.rs:176-235 | Appends exactly the words of the group to what was there |
| `Speech.SpeakWan` | src/core/speech.rs:152-170 | Appends the words of up to eight digits |
| `Speech.SpeakTail` | src/core/speech.rs:142-170 | Appends what follows a closed group |
| `Speech.SpeakInteger` | src/core/speech.rs:115-170 | Appends the words that `HeardInteger` understands, for any number of digits |
| `Speech.Speak` | src/core/speech.rs:73-110 | Produces the words that `ListenUndoesSpeak` understands: sign, whole part, point and fraction |
| `RemoteExecution.TwoNodeAgreement` | src/net/router.rs:279-433 | After every legal run, accepted snapshot numbers increase strictly. Whenever the last accepted number is the latest one, whatever it is, and nothing was sent since, the controller's whole display is what the executor showed right after running that number. While no number was used twice the numbers alone say so and what ran is the very key issued; below the largest number none was used twice |
| `RemoteExecution.ExecutedAsSentAndCurrent` | src/net/router.rs:351-378 | Every execution in every run is of a key the controller sent under that number and stamp, at most thirty seconds ahead of the stamp and five minutes behind it |
| `RemoteExecution.AtMostOnceInOrder` | src/net/router.rs:141-180 | Inside one session epoch the executor runs a strictly increasing subsequence of the controller's numbers, under any duplication, reordering and toggling of the switch |
| `RemoteExecution.NeverAgainThisEpoch` | src/net/router.rs:351-378 | Once a number has run in the current epoch, any envelope with that number or a smaller one is refused |
| `RemoteExecution.ExecutorIsReplay` | src/net/router.rs:351-396 | The executor's calculator is exactly the replay of the remote actions, own keys and snapshots it accepted |
| `RemoteExecution.InvAlways` | src/net/router.rs:279-533 | The protocol invariant after every run: what is on the wire was issued or produced, executions are known and in order, the controller agrees |
| `RemoteExecution.PromptExchangeAgrees` | src/net/router.rs:279-433 | With both ends connected and willing, a key, its delivery and the reply are a legal run after which both screens are equal, the controller is up to date and its engine restored from that view, and exactly that key was executed |
| `RemoteExecution.FalselyConfirmedOnlyWhenSaturated` | src/net/router.rs:514-523 | Right after a sent key the controller looks confirmed by its executor if and only if it was confirmed at a saturated counter; its screen is then its own guess, and neither the executor nor what was executed has changed |
| `RemoteExecution.ReusedNumberAgreesIffSameView` | src/net/router.rs:279-523 | For all worlds at the last number and all pairs of keys: the first exchange is confirmed, the second key leaves the controller looking confirmed with one execution, and it agrees with that execution if and only if its guess is the same view |
| `RemoteExecution.AgreementFailsAtTheLastNumber` | src/net/router.rs:279-523 | The failing run: 1 is sent, executed and confirmed, 2 is sent under the same number, and the controller looks confirmed while showing 2, which no execution produced |
| `RemoteExecution.ControllerConfirms` | src/net/router.rs:398-433 | Only an accepted snapshot with the latest number makes the controller up to date; any other step that leaves it so changed neither screen nor number, or sent a key at a saturated counter |
| `RemoteExecution.ExecutorReplies` | src/net/router.rs:389-396 | A snapshot is sent only for an admitted action, to its sender, with its number and the engine's view after it |
| `RemoteExecution.ExecutorRemembers` | src/net/router.rs:141-222 | Only an admitted action or a session change alters the replay boundary of a peer, and an admitted one raises it |
| `RemoteRouter.StructureAlways` | src/net/router.rs:141-243 | After every sequence of calls: at most 64 peers; keys, controllers, sequences and windows only for connected peers; controllers only while the switch is on; the confirmed number at most the issued one, and non-zero only with a connected executor |
| `RemoteRouter.DispatchIsLocalAndOnce` | src/net/router.rs:279-304 | A valid key reaches the local calculator exactly once whatever the channel does; with a live executor it takes the next number, and either sends its own envelope or lets the executor go; nothing else changes |
| `RemoteRouter.ActionOutcome` | src/net/router.rs:351-396 | A remote action is executed, noted and answered with the engine's view exactly when it is in its sender's own name, from a connected peer, while the switch is on, well formed, between thirty seconds before and five minutes after its stamp, newer than the last and within budget; otherwise only the window may change |
| `RemoteRouter.NewSessionStartsOver` | src/net/router.rs:162-180 | In a session just added any number from one on may run, and only the stamp can stop it |
| `RemoteRouter.SwitchIsLastSetting` | src/net/router.rs:141-148 | Over every run the switch stands where it was last put |
| `RemoteRouter.SnapshotOutcome` | src/net/router.rs:398-481 | A snapshot is taken over, whole, exactly when it comes from the selected connected executor, answers a number issued and not yet answered, keeps the byte limits and has no control characters, a blank or M indicator, and a numeral or the error text; otherwise nothing changes |
| `RemoteRouter.OwnViewAcceptableIff` | src/net/router.rs:468-481 | An engine's own view is acceptable if and only if its history line is short and clean and it is an error or a numeral of at most 64 characters |
| `RemoteRouter.Router.constructor` | src/net/router.rs:88-114 | A new router has the switch off, no peers, no executor and counters at zero |
| `RemoteRouter.Router.SetAllowRemoteControl` | src/net/router.rs:141-148 | Switching off forgets controllers and windows and keeps the replay boundaries |
| `RemoteRouter.Router.SetRemotePublicKey` | src/net/router.rs:150-155 | A key is stored for a connected peer only |
| `RemoteRouter.Router.AddRemoteSession` | src/net/router.rs:162-180 | A session is added within the limit and starts a new replay epoch; the answer is whether the peer is connected |
| `RemoteRouter.Router.RemoveRemoteSession` | src/net/router.rs:182-193 | Everything about the peer goes, and the executor with it when it was that peer |
| `RemoteRouter.Router.TakeBounded` | src/net/router.rs:203-206 | A subset of the peers, all of them up to 64 |
| `RemoteRouter.Router.SetConnectedPeers` | src/net/router.rs:203-222 | The new state keeps exactly what belongs to some bounded choice of the given peers |
| `RemoteRouter.Router.SelectRemoteExecutor` | src/net/router.rs:226-231 | One executor, nothing confirmed yet; the answer is whether it is connected |
| `RemoteRouter.Router.ClearRemoteExecutor` | src/net/router.rs:233-237 | No executor, nothing confirmed |
| `RemoteRouter.Router.ClearRemoteExecutorIf` | src/net/router.rs:239-243 | The same, for the named executor only |
| `RemoteRouter.Router.Execute` | src/net/router.rs:483-512 | The calculator takes the action once and the screen shows its result |
| `RemoteRouter.Router.OnDispatch` | src/net/router.rs:279-304 | State and packet of a local key in the remote, overloaded, local and invalid cases |
| `RemoteRouter.Router.ConsumeRateBudget` | src/net/router.rs:435-453 | The peer's window and the verdict, and no other window changed |
| `RemoteRouter.Router.HandleRemoteAction` | src/net/router.rs:351-396 | State and reply for each refusal, for the rate limit and for the accepted action |
| `RemoteRouter.Router.HandleRemoteState` | src/net/router.rs:398-433 | State after an accepted or a rejected snapshot |
| `RemoteRouter.Router.HandleNetworkMessage` | src/net/router.rs:306-349 | Actions and snapshots are handled, everything else leaves the router alone |
| `RateLimit.RemoteActionRate` | src/net/router.rs:351-453 | While the peer's record stays and the clock is monotone, any T whole seconds see fewer than 120*(T+1) of its actions executed, so at most 239 in one second, also when the run begins with a window already open |
| `RateLimit.WindowsStayLive` | src/net/router.rs:435-453 | Every call leaves a peer's window opened by a grant, within budget and not in the future, which is all the bound asks of an open window |
| `RateLimit.WindowBound` | src/net/router.rs:435-453 | The same bound for the limiter alone, from any window it can be in |
| `RateLimit.ActionsAreGrants` | src/net/router.rs:351-378 | The executed actions of a whole run are exactly the grants of that peer's limiter |
| `RateLimit.GrantedIffAmongFirst120` | src/net/router.rs:435-453 | For every schedule of one peer, a request is granted if and only if it is among the first 120 since the request that opened its window, and each window opens a full second or more after the last |
| `RateLimit.RateBoundIsReached` | src/net/router.rs:435-453 | A schedule for which one second sees 239 grants |
| `SessionRegistry.RegistrySafety` | src/net/runtime.rs:488-720 | Over every interleaving of both tasks and the manager's clearing: between commands every entry was told it is accepted; a generation cancelled by replacement is never registered again; one cancelled by a failed send is registered only while that task is about to drop it or because a failed hand-off put it back |
| `SessionRegistry.EntryLeavesOnlyBy` | src/net/runtime.rs:488-720 | An entry leaves only by its own unregister, its own failed send, its own failed hand-off, a newcomer in the other direction opened by the lower id, or the shutdown that empties the registry |
| `SessionRegistry.RegistrationOutcome` | src/net/runtime.rs:598-641 | A newcomer is registered exactly when it has no rival, or its rival runs in the other direction and the newcomer was opened by the lower id; a loser changes nothing and nobody else's entry changes |
| `SessionRegistry.LowerIdStays` | src/net/runtime.rs:598-661 | Over every run of registrations, decisions and messages an entry opened by the lower id stays, whatever the directions of the newcomers |
| `SessionRegistry.UnregisterIsFinal` | src/net/runtime.rs:685-696 | An unregister takes out its own entry and no other, and over every continuation that generation never comes back |
| `SessionRegistry.InvAlways` | src/net/runtime.rs:488-720 | The registry and sender invariants hold in every state of every interleaving, and cancelled generations stay recorded |
| `SessionRegistry.PreviousReturnsIffNewcomerStayed` | src/net/runtime.rs:642-658 | A failed hand-off takes the newcomer out and gives back the previous session, if there was one, exactly when the newcomer is still registered, and touches no other entry |
| `SessionRegistry.PreviousCanBeLost` | src/net/runtime.rs:499-658 | For any two nodes, an interleaving that loses a told, uncancelled session |
| `SessionRegistry.DroppedReturnsIffPutBack` | src/net/runtime.rs:642-658 | A generation cancelled by a failed send and gone from the registry comes back in a step if and only if that step is a roll-back whose newcomer is still registered and had displaced it |
| `SessionRegistry.DroppedCanReturn` | src/net/runtime.rs:499-658 | For any two nodes, an interleaving after which a generation cancelled by a failed send is the registered one |
| `SessionRegistry.Registry.Admit` | src/net/runtime.rs:598-641 | Accepted exactly when there is no rival, or it runs in the other direction and the newcomer was opened by the lower id; with the new map and the replaced entry |
| `SessionRegistry.Registry.RemoveSessionIfCurrent` | src/net/runtime.rs:1102-1116 | Only the entry of that very generation goes, and the answer says whether it did |
| `SessionRegistry.Registry.RollBack` | src/net/runtime.rs:642-658 | The newcomer, if still there, gives way to the previous entry or to none |
| `CrossingConnections.CrossingConverges` | src/net/runtime.rs:488-720 | On the product of two registry machines and the four ends, over every interleaving: the lower id's connection is never rejected, displaced or dropped; apart from traffic at most 80 steps are taken; a state with nothing due can always be reached, and in it both registries hold that connection and the other is gone |
| `CrossingConnections.QuietNode` | src/net/runtime.rs:1088-1100 | With nothing due, a node's registry holds the lower id's connection and its end of the other is gone |
| `CrossingConnections.MoveDoesWork` | src/net/runtime.rs:488-720 | Every move keeps the invariant of both nodes, and every one but traffic lowers a measure |
| `CrossingConnections.CanSettle` | src/net/runtime.rs:488-720 | From every state of the invariant, doing whatever is due leads to a state with nothing due |
| `CrossingConnections.InvAlways` | src/net/session.rs:306-339 | The invariant after every interleaving, with the number of steps apart from traffic bounded by the measure |
| `Handshake.HandshakeCompletes` | src/net/handshake.rs:53-279 | Honest parties under any schedule: neither fails, they never both wait, after twelve turns each holds the other's id, name and key, and each payload signed is byte for byte the one verified |
| `Handshake.NoAdmissionWithoutProof` | src/net/handshake.rs:53-333 | Whatever frames arrive, either side returns an identity only if its id derives from its key and a frame holds a signature under that key over this side's nonce, the peer's role and both identities |
| `Handshake.ServerAdmitsIff` | src/net/handshake.rs:53-174 | Whatever frames arrive, a server admits an identity if and only if they are its Hello of version 5 and this application, with a valid name and a key that yields the id, the tag of that very Hello, a verifying signature over the server's nonce, the client role and both identities, and a challenge |
| `Handshake.ClientAdmitsIff` | src/net/handshake.rs:187-279 | The same for a client: a fitting acknowledgement, a challenge and the server's verifying proof |
| `Handshake.RefusedHello` | src/net/handshake.rs:78-109 | Only a wrong version from a named peer of this application is answered, by an acknowledgement of version zero on which a client gives up; any other first frame is refused in silence |
| `Handshake.NeverBothWait` | src/net/handshake.rs:53-279 | In every reachable state someone can move or both are done |
| `Handshake.InvAlways` | src/net/handshake.rs:53-279 | The product invariant after every schedule; each turn is one action of one program |
| `Handshake.AuthPayloadInjective` | src/net/handshake.rs:370-388 | Equal payloads mean equal role, nonce, signer and verifier |
| `Handshake.PayloadLayout` | src/net/handshake.rs:370-388 | The signed bytes spelt out: domain and role as text, then nonce, signer and verifier |
| `Handshake.ValidNameIs` | src/net/protocol.rs:20-24 | A valid name has a visible character, at most 64 UTF-8 bytes and no control characters |
| `Heartbeat.ClosedIffOverdue` | src/net/session.rs:356-366 | For every order of ticks, probes and pongs the session is closed if and only if some probe came more than fifteen ticks after the last pong |
| `Heartbeat.SilentPeerClosedWithin21` | src/net/session.rs:351-389 | A peer silent after second s is closed by the end of second s + 21, in any order within each second |
| `Heartbeat.TwentySecondsMayNotSuffice` | src/net/session.rs:351-389 | A schedule that still has the session open after twenty silent seconds |
| `Heartbeat.Monitor.On` | src/net/session.rs:356-389 | The new counter and verdict for a tick, a probe or a pong |
| `NetworkHost.SingleLiveRuntime` | src/net/mod.rs:191-354 | Over every sequence of starts, shutdowns and thread exits: at most one live thread; a live thread not held means the flag; the flag never clears and no later start succeeds; a successful start found no live thread; a mode other than Offline means a held thread |
| `NetworkHost.FlagIffEverUnclean` | src/net/mod.rs:191-354 | Over every run the flag is set if and only if a thread was let go of other than by a completed join, at a shutdown, a restart or a failed start-up |
| `NetworkHost.ShutdownOutcome` | src/net/mod.rs:318-354 | After every run a shutdown empties the sessions, goes offline and holds no thread, and answers yes exactly when the flag is clear and the thread, if any, was joined; then none is live |
| `NetworkHost.StartOutcome` | src/net/mod.rs:191-313 | After every run a start runs, in the mode asked for and with its own thread as the only live one, exactly when the mode is not Offline, the flag is clear, the old thread is gone or joins, and the launch succeeds; each refusal exactly when its cause holds |
| `NetworkHost.RestartAfterCleanStop` | src/net/mod.rs:191-354 | A start, a joined shutdown and a start in any mode all succeed |
| `NetworkHost.InvAlways` | src/net/mod.rs:191-354 | The invariant behind it after every sequence |
| `NetworkHost.NetworkManager.FinishNetworkThread` | src/net/mod.rs:455-491 | Only a completed, clean join counts as stopped |
| `NetworkHost.NetworkManager.Shutdown` | src/net/mod.rs:318-354 | New state and answer, with and without a held thread and completion receiver |
| `NetworkHost.NetworkManager.Start` | src/net/mod.rs:191-313 | New state and result for each refusal, each failed launch and success |
| `DiscoveryPeers.TableIsRecencyPrefix` | src/net/discovery/peer_table.rs:42-130 | With increasing report times, after any mix of calls the table holds at most 64 ids, exactly the most recently touched ones, and each record is field by field the latest value reported since it entered |
| `DiscoveryPeers.RecentIsKept` | src/net/discovery/peer_table.rs:42-99 | An id is in the table if fewer than 64 others were touched since it was and no pruning came ninety seconds or more after it |
| `DiscoveryPeers.PruningLeavesTheRecent` | src/net/discovery/peer_table.rs:93-99 | A pruning keeps exactly the ids touched less than ninety seconds before |
| `DiscoveryPeers.MergedIsLatest` | src/net/discovery/peer_table.rs:44-61 | Field by field a merged record is the latest that was said: silence never erases |
| `DiscoveryPeers.MostRecentIsUnique` | src/net/discovery/peer_table.rs:62-73 | There is one set of most recently touched ids of each size |
| `DiscoveryPeers.PeerTable.OldestKey` | src/net/discovery/peer_table.rs:63-69 | A key whose time no other entry's precedes |
| `DiscoveryPeers.PeerTable.AddPeer` | src/net/discovery/peer_table.rs:42-75 | Merge, insertion, or eviction of an oldest entry and insertion |
| `DiscoveryPeers.PeerTable.RemoveExpired` | src/net/discovery/peer_table.rs:93-99 | Exactly the entries younger than ninety seconds stay, and the answer counts the others |
| `DiscoveryPeers.PeerTable.UpdateName` | src/net/discovery/peer_table.rs:122-130 | Name and time of a present peer change, and nothing else |
| `DiscoveryThrottle.RetryOnlyAfterCrowding` | src/net/runtime.rs:1050-1082 | Two approvals of one node and address under thirty seconds apart, without another address of it between, mean that at least 256 other nodes were approved at or after the first one's time |
| `DiscoveryThrottle.RefusedOnlyAfterApproval` | src/net/runtime.rs:1056-1063 | A refused call follows an approval of the same node and address less than thirty seconds before |
| `DiscoveryThrottle.EvictionNeedsOthers` | src/net/runtime.rs:1069-1080 | An entry is evicted only when 256 other nodes were approved no earlier than it |
| `DiscoveryThrottle.BoundedAndJustified` | src/net/runtime.rs:1050-1082 | At most 256 entries in every state, each the trace of an approval |
| `DiscoveryThrottle.Throttle.OldestNode` | src/net/runtime.rs:1071-1074 | A node whose attempt no other precedes |
| `DiscoveryThrottle.Throttle.ShouldAttempt` | src/net/runtime.rs:1050-1082 | The verdict and the new map, with eviction of an oldest entry when full |
| `Wav.ParseOfConcat` | src/audio/convert.rs:116-219 | A concatenation parses to the first format with the concatenated payloads at offset 44 if and only if their total fits 32 bits |
| `Wav.NestedConcatFlattens` | src/audio/convert.rs:169-219 | Concatenating concatenations is concatenating everything at once, byte for byte, and fails on the same inputs |
| `Wav.ConcatAcceptsIff` | src/audio/convert.rs:169-188 | A list of buffers concatenates if and only if it is not empty, all parse, and any two agree in channels, rate and depth |
| `Wav.FormatKeptIffAudioFormatsAgree` | src/audio/convert.rs:179-202 | For every accepted list of buffers that fits one header, the output has the format of every input if and only if all inputs carry the first one's audio format |
| `Wav.IntegerAndFloatConcatenate` | src/audio/convert.rs:179-202 | Integer and floating-point files of any one shape concatenate, under the integer label |
| `Wav.ParseFile` | src/audio/convert.rs:116-216 | A printed file parses to its own format and payload |
| `Wav.ParseOfChunks` | src/audio/convert.rs:116-163 | A file of any whole chunks in any order parses to what its chunks say, the last word counting and an empty chunk ending the walk, and is refused exactly when it is shorter than 44 bytes or has no samples |
| `Wav.SamplesFoundBehindOtherChunks` | src/audio/convert.rs:130-154 | Any further non-empty chunks before the samples are stepped over and the samples are found |
| `Wav.HeaderIsConsistent` | src/audio/convert.rs:190-209 | Without overflow the printed sizes, frame size and byte rate are those the format and payload imply |
| `Wav.Parse` | src/audio/convert.rs:116-163 | An accepted data range is non-empty and inside the buffer |
| `Wav.ParseWavInfo` | src/audio/convert.rs:116-163 | The chunk loop, which ends with every access in bounds, computes the parse that the round trips speak of |
| `Wav.ConcatWavBuffers` | src/audio/convert.rs:169-219 | The three loops compute the concatenation, or nothing on an empty, unparseable or mismatched input |

## Left out

- The user interface, keyboard mapping, configuration files and program start: wiring.
- Sockets, the Tokio scheduler, mDNS, multicast, framing and bincode: messages are values and channels are sequences or sets; every schedule is allowed.
- Spoken events per key, muting and playback, dithering and `float_wav_to_pcm24`: lookup tables and floating point.
- `rust_decimal` limits, rounding, overflow panics and negative zero: arithmetic is an arbitrary total function on `real`, exact only where a lemma says so. The left fold needs no exactness.
- `format_display` and its scientific notation: an arbitrary function `show`. A numeral is an optional minus, digits, and optionally a point and digits, so a snapshot that shows scientific notation or an underscore is outside the model's valid snapshots.
- Ed25519, HMAC and node-id derivation: ideal functions; a signature made with a key verifies under its public half, and that is all that is assumed. Timeouts and refused writes inside the handshake are not modelled.
- Square root and memory recall inside the left fold: both overwrite the accumulator while an operator waits, so the fold is not what the program promises there.
- `set_local_node_id`, connection-error text and the display of controllers in the router: easy members.
- CrossingConverges: covers one connection in each direction. Refusal, overload, time-outs and breaks are allowed for the connection the higher id opened and not for the other, which could then be lost for reasons that are not the tie-break; nor does the manager shut down meanwhile.
- RegistrySafety: does not model `is_connected` or UI events.
- RefinesLeftFold: over a buffer already begun, the first attempt must be ended by C and not eat into that buffer with backspace; a sign key on an empty buffer is not operand typing, since it negates the accumulator.
- SilentPeerClosedWithin21: takes the interval timers as exact, one tick a second and one probe every fifth; delayed ticks and a full ping queue are not modelled.
- The set of connects in flight, `ConnectToPeer`, address policy and the inbound limiter: counters with easy invariants.
- TableIsRecencyPrefix: report times increase strictly, as two equal times leave the evicted entry unspecified; `PeerTable::remove` would break recency and is not used by discovery.
- ConcatWavBuffers: header fields wrap at their widths, which is what a release build does; a debug build stops instead.
- RIFF padding: the chunk walk of the program does not skip pad bytes and neither does the model.
