# A verified model of the farcaster node

Farcaster is a node for atomic swaps between bitcoin and monero. This project models three
of its daemons in Dafny and proves what their protocols promise.

**swapd** runs one swap for one party. Its state machine has 27 states; its handlers read and
change a map of transactions, the tables of syncer tasks, the latest confirmations of Lock,
Cancel and Buy, one unhandled peer message, and a wallet whose stage fields fill up as the
protocol advances. After every transition it replays what is kept. The model covers every
handler, the replay, the syncer client, the wallet stages, the timelock arithmetic, the
checkpoints and the restore path, and composes the two parties with a small bitcoin chain.

**peerd** delivers peer messages over a link that can lose anything, by caching what has not been
acknowledged and resending it after every reconnect.

**farcasterd** turns deals into swaps: a vector of trade machines, routed to by removal and
re-insertion, and a gate that starts a launched swap once syncers, swap daemon and peer are up.

## How it is built

Each daemon appears twice. The specification is a set of functions on values (`SwapState`,
`Execution`, `SyncerClient`, `SwapWallet`, `PeerDelivery`, `Trades`); the daemon as it runs is a
class with the original's fields, loops and updates in place (`SwapdRuntime.Runtime`,
`SyncerStates.SyncerState`, `WalletStates.WalletState`, `PeerdRuntime.PeerRuntime`,
`TradeRuntime.FarcasterdRuntime`), each method of which is proved to do to the object exactly
what its function does to the value. What the protocols promise is proved of the functions.

swapd's history is a `log` of everything it hears (`In`) and sends (`Out`), across restarts;
`runStart` marks where the present run began. A life is a sequence of states from a launch,
each got from the last by a message, or by a crash after any number of the message's sends
followed by a restore of the last checkpoint in the log; a restore can be cut off after any number of its
own sends and started over, any number of times. The invariant over lives has nine
parts, one module each: `Stages` (wallet stage of each state), `Tables` (task tables and the
transactions each state relies on), `Commitment` (checkpoint before commitment), `FundingWindow`,
`Publishing` (what is held and what has been broadcast), `BuyAlone` (nothing but Buy, whatever the
label), `ReleaseOrder`, `SentMessages` and `HeardMessages`. `Runs` puts them together for a step and its replay, `Restart` for a restore,
`Handling` for a message and for lives, and `Quiescence` adds that nothing kept is left undone.
`Guarantees` states the results about one party, `World` those about both, `Liveness` that the way on is
open, and `FallingCounts` builds a life that shows one assumption to be needed. The runs of farcasterd are in
`TradeRuns` (what is lost, consumed and launched) and `TradeStarts` (when a launched swap is started).

The environment of a party is a parameter: which txids may stand for a label, which bitcoin
transactions are final, which peer messages were sent, and whether reported counts of Lock never
fall (`steady`). What the bus owes besides is in `Handling.Legit`: a returned request was
made, a report of a broadcast carries no other task's id, peer daemons only relay messages and report on their
connection. Under the environment that promises nothing else, the guarantees say what the code does
on its own; the composition instantiates it with what the chain holds and what the other party
has sent.

Assumptions of the two-party composition: both parties' transaction building gives the swap's one set of
transactions; syncers report confirmations that are or were true of the chain, and no reorganisation
reaches as deep as a finality threshold; messages heard were sent by the other party; Lock is mined only after Bob has
broadcast; the chain obeys the spending rules and the relative lock times of BIP 68 and BIP 112;
the bitcoin finality threshold is at least one; a restore happens only into a fresh runtime.

## Where the code is not what one expects

The model follows the code in these points.

- The countdown to the end of funding (`src/swapd/temporal_safety.rs:79-81`) passes zero three blocks
  before the machine stops funding: `Temporal.FundingCountdownIsEarly`.
- Alice checks `valid_cancel`, never `safe_buy`, before she broadcasts Buy
  (`src/swapd/swap_state.rs:1702`); what does hold is `Guarantees.BuyBeforeExpiry`. When the
  reported count of Lock falls she can publish Buy after Cancel: `Publishing.BothExactlyWhenTheCountFell` says
  exactly when, `FallingCounts.BothAreReached` that it happens.
- The guards of the sweep states look at a confirmation count but not at whose it is
  (`src/swapd/swap_state.rs:1264-1269`, `src/swapd/swap_state.rs:1957-1962`).
- Any peer message that leads to a transition clears the one kept for later, whatever its type
  (`src/swapd/runtime.rs:695-701`).
- A counterparty that commits in the party's own role is refused only inside the wallet
  (`src/swapd/wallet.rs:727-765`): `WrongRoles.WrongRoleIsReached`; exactly which messages are refused as its
  fault is said by `WrongRoles.PeerIsBlamedExactly`.
- Pending peer requests are forgotten after one attempt to resend them (`src/swapd/runtime.rs:381-384`).
- A listener-side peerd does not return the message whose sending failed:
  `PeerDelivery.ListenerLosesTheMessage`. A key handed over twice can lose a message:
  `PeerDelivery.LostExactlyByItsKey`, `PeerDelivery.ReusedKeyIsLost`.
- The subtractions in `safe_buy` and `safe_refund` are of unsigned 32-bit numbers. The model wraps them,
  as a release build does: `Temporal.WrapAroundIsUnsafe`, `Temporal.MarginIffItFits` and
  `Temporal.RefundMarginIffItFits`.
- Bob's first payment to his funding address closes the request even if the wallet then refuses it
  (`src/swapd/swap_state.rs:940-963`), and after that only an abort leads on:
  `Liveness.RefusedFundingIsAnswered`, `Liveness.AnsweredFundingOnlyAborts`.
- A peer that reconnects for another deal is registered without showing this to the machines, so a
  launched swap that lacked only this peer waits for the next announcement. This, and nothing else,
  leaves a swap waiting: `TradeStarts.RunIsPromptExactly`; it happens: `TradeStarts.AStartIsMissed`.
- An error while an announcement is shown to the machines drops the one that failed and those not yet
  shown it, exactly as `TradeRuns.HelloLosesNobodyExactly` says: `TradeRuns.OneIsLost`.
- A report that funding is needed replaces a running machine's swap identifier by the one in the message
  (`src/farcasterd/trade_state_machine.rs:1328-1333`).

## Model

| member | source | states |
|---|---|---|
| Guarantees.LockIsCrashSafe | src/swapd/swap_state.rs:1054-1080 | For every reachable Bob and every point at which the process may die: if any transaction was handed to a syncer before that point, the last stored checkpoint is a BobRefundProcedureSignatures one that holds Cancel and Refund, names Lock, Cancel, Refund and Buy, and lists Lock among the pending broadcasts |
| Guarantees.SignaturesAreCrashSafe | src/swapd/swap_state.rs:1395-1458 | The same for Alice: once her refund signatures or a transaction are out, the checkpoint in store can cancel and punish and resends the signatures, or finishes Buy |
| Guarantees.RefundIsKept | src/swapd/swap_state.rs:1054-1363 | In each of Bob's six states from the one that hands out Lock on, short of BobCancelFinal and the end, the Refund transaction is still held, and Cancel and Refund are watched |
| Guarantees.RefundLeavesByItsBroadcast | src/swapd/swap_state.rs:1329-1363 | The only ways out of those states are the end and the one step whose only send broadcasts the Refund held |
| Guarantees.CancelIsPrompt | src/swapd/swap_state.rs:2140-2235 | After any fully handled message, in each state that can cancel: a kept Lock count that allows Cancel means Cancel has been broadcast in this run |
| Guarantees.RefundIsPrompt | src/swapd/swap_state.rs:1329-1363 | Bob is never left in BobCanceled with a final Cancel confirmation already kept |
| Guarantees.PunishIsPrompt | src/swapd/swap_state.rs:1808-1870 | In AliceCanceled a kept Cancel count that allows Punish means Punish has been broadcast in this run |
| Guarantees.FundingWindowHolds | src/swapd/swap_state.rs:1540-1632 | While funding is awaited Alice is in AliceArbitratingLockFinal, her last word to the client is a funding request, and the kept Lock count leaves the race margin |
| Guarantees.FundingIsPaired | src/swapd/swap_state.rs:1917-1926 | Every report that Monero funding completed or was canceled answers a request still open, over all runs and restarts; the late clean-up branches never find funding awaited |
| Guarantees.BuyExcludesCancel | src/swapd/swap_state.rs:2206-2219 | With Lock counts that do not fall, no run broadcasts both Buy and Cancel, a run in AliceBuyProcedureSignature has broadcast nothing but the Buy it holds, under any label and the broadcasts of a restart included, and in AliceAccordantLock a Lock count is kept |
| BuyAlone.NextAlone | src/swapd/swap_state.rs:1395-1721 | Every handler keeps, by transaction and not by label: Alice has broadcast nothing in this run while she holds Cancel before cancelling, and nothing but Buy once she has used the Buy signature, if counts do not fall |
| Restart.ReviveBroadcasts | src/swapd/runtime.rs:395-467 | All that a restart broadcasts is what was pending in the checkpoint |
| Publishing.BothExactlyWhenTheCountFell | src/swapd/swap_state.rs:1667-1721 | Without that assumption: after the Buy signature both transactions are out exactly if Cancel was before and the kept Lock count no longer allows it |
| FallingCounts.BothAreReached | src/swapd/swap_state.rs:1667-1721 | And that state is reached, whatever the valid timelocks are: taking, committing, revealing, setting up, Lock final, payment, Lock at the timelock, Lock lower again, and the Buy signature lead Alice, without a crash, to a run that has put out both |
| Guarantees.BuyBeforeExpiry | src/swapd/swap_state.rs:1667-1721 | Alice moves on to Buy only while no kept Lock count has reached the cancel timelock, in any environment; if counts do not fall there is a kept one |
| Guarantees.NothingAfterBuy | src/swapd/swap_state.rs:1723-1763 | After Buy is out, in this run or broadcast again by its restart, no message makes the run broadcast anything more |
| Guarantees.ReleaseIsOrdered | src/swapd/swap_state.rs:1087-1281 | Each Buy signature Bob ever sent follows, in one run: watching the shared address, an incoming payment of at least the agreed amount reported by that very task, watching that payment's transaction, and its final confirmation. Ending in success needs, in one run and in this order: the signature sent, the final confirmation of the very Buy it signs by the task that watches it, asking for that transaction, its retrieval, the sweep task sent, and that task's success |
| Guarantees.AbortIsSafe | src/swapd/swap_state.rs:2237-2280 | A swap ends in FailureAbort only if its party never committed: Alice sent no refund signatures, Bob broadcast nothing |
| Guarantees.AbortIsTooLate | src/swapd/swap_state.rs:2246-2257 | Once committed, an abort request changes nothing but an answer to the client |
| Guarantees.ErrorsBlameOthers | src/swapd/wallet.rs:793-968 | In every reachable state, whatever arrives, an error is one of the cryptography or of the peer: wrong-stage errors, the panics, and every wrong-role branch of the wallet but that for commitments are unreachable |
| WrongRoles.PeerIsBlamedExactly | src/swapd/wallet.rs:721-765 | In every reachable state a step fails as the peer's fault exactly for a commitment in the party's own role, which is the one wrong-role branch taken, and for a reveal that is not of the commitment |
| WrongRoles.RevealRoleIsRight | src/swapd/wallet.rs:793-928 | A reveal that reaches the wallet is in the other role than the wallet, so its wrong-role branches are never taken |
| WrongRoles.WrongRoleIsReached | src/swapd/wallet.rs:727-745 | A maker that commits in the taker's role does reach the wrong-role branch for commitments |
| Guarantees.StagesHold | src/swapd/wallet.rs:971-1206 | Every reachable state fixes the wallet's role, which of its stage fields are set, and opposite roles of the two parameter sets |
| Guarantees.TablesHold | src/swapd/syncer_client.rs:29-47 | Over every run ids stay at most the counter, the four tables are disjoint, broadcasts have their task, labels are watched, and in the sweep states the sweep id is that of the state's own task |
| Guarantees.ReplayIsAtRest | src/swapd/runtime.rs:702-715 | In every reachable state the machine takes no notice of any kept Buy, Lock or Cancel confirmation shown again |
| Guarantees.RedeliveryIsOnlyNoted | src/swapd/runtime.rs:583-612 | Delivering a kept confirmation again, from any service, succeeds and changes neither the state, the transactions, the labels nor anything sent |
| Guarantees.ReachableSound | src/swapd/runtime.rs:301-345 | Every state reachable by messages, failed messages, crashes between any two sends, restarts, and crashes between any two sends of a restart, as often as one likes, satisfies the whole invariant and has nothing kept left to do |
| Guarantees.AnythingFits | src/swapd/runtime.rs:520-662 | The environment that promises nothing is a legal one: the guarantees that assume no more hold of the code on its own |
| World.Agreement | src/swapd/swap_state.rs:1283-1327 | Two parties running this code over a channel that loses, delays and duplicates, on a chain without deep reorganisations: once both have ended, they have ended with the same outcome, and not by punishment |
| World.PunishMeansBobIsAway | src/swapd/swap_state.rs:1765-1949 | FailurePunish is only ever Alice's, and only while Bob has not ended |
| World.AbortMeansNoLock | src/swapd/swap_state.rs:2237-2280 | From the moment Alice has aborted, at every later moment of the run: she stays aborted, neither party has broadcast anything and no block holds Lock |
| Guarantees.AliceAbortLasts | src/swapd/runtime.rs:845-874 | No message, and no crash followed by any number of restarts, undoes Alice's abort: she has no checkpoint before she commits herself |
| World.RunKeeps | src/swapd/runtime.rs:520-662 | Every state of every joint run of the two parties and the chain satisfies the joint invariant |
| World.TruthFits | src/swapd/runtime.rs:583-612 | A confirmation count that was true of the chain at any earlier moment of the run, and is final for a party, is one its guarantees may rely on now, however often the chain was reorganised since |
| World.EndIsFinal | src/swapd/swap_state.rs:1723-1949 | A party's outcome tells which transaction is final on the chain |
| Chains.DeepStays | src/swapd/swap_state.rs:1181-1256 | What is final stays in every later chain without deep reorganisations |
| Chains.ReorgsCompose | src/swapd/swap_state.rs:1181-1256 | Reorganisations that each leave final blocks alone do so together |
| Chains.CancelIsMineable | src/swapd/temporal_safety.rs:84-87 | The machine finds Cancel publishable exactly when the relative lock time on Lock (BIP 68, BIP 112) lets the next block hold it |
| Chains.CancelMeansExpired | src/cli/opts.rs:188-194 | A mined Cancel means Lock has more confirmations than the cancel timelock |
| Chains.OneWayOut | src/swapd/swap_state.rs:1765-1949 | At most one of Buy, Refund and Punish is ever mined, and none without what it spends |
| Execution.TransitionLowersMeasure | src/swapd/runtime.rs:666-722 | Every transition on a replayed message, self-transitions included, lowers the lexicographic measure of rank, transactions, labels and awaited funding |
| Execution.TransitionsGoForward | src/swapd/swap_state.rs:420-540 | Every transition goes to a state closer to the end, or is a self-transition of one of three states |
| Execution.RoundLowers | src/swapd/runtime.rs:702-715 | A replay started by a replayed message starts lower: the mutual recursion of execution, message and confirmation handling ends |
| Execution.CancelLoopLowersMeasure | src/swapd/swap_state.rs:1784-1870 | Each self-transition of AliceCanceled uses up a transaction or a label |
| Execution.FundingLoopLowersMeasure | src/swapd/swap_state.rs:1566-1594 | The self-transition that cancels funding uses up the awaited funding |
| Execution.BobLoopLowersMeasure | src/swapd/swap_state.rs:1181-1256 | The self-transition of BobAccordantLockFinal uses up the Buy label |
| Quiescence.IdleStays | src/swapd/runtime.rs:666-722 | A message the invariant calls idle leaves the machine exactly as it is |
| Quiescence.HandleQuiet | src/swapd/runtime.rs:702-715 | After every message, even one that failed, nothing kept has anything left to do |
| Quiescence.ExecuteQuiet | src/swapd/runtime.rs:666-722 | One execution with its replay keeps that, starting from all but the message itself |
| Quiescence.ReplaySettles | src/swapd/runtime.rs:702-715 | The replay of peer message, Buy, Lock and Cancel settles all of them at once, whatever order they unlock each other in |
| Liveness.NeverStuck | src/swapd/swap_state.rs:420-539 | In every reachable state but the end, with keys that can be derived, some event the bus may deliver brings the swap closer to its end, even if no reveal or signature ever verifies |
| Liveness.ForwardIsOpen | src/swapd/swap_state.rs:420-539 | And with an honest counterparty's messages the protocol's own next event does, neither an abort nor a cancel: in each reachable state the labels, watches, tasks and transactions its handler asks for are there, but for a funding already answered |
| Liveness.AnsweredFundingOnlyAborts | src/swapd/swap_state.rs:916-1015 | In that one case, funding answered without a transition, nothing but an abort leads on |
| Liveness.RefusedFundingIsAnswered | src/swapd/swap_state.rs:916-1015 | A funding of the right amount that the wallet refuses leads there |
| Liveness.AliceCanceledMoves | src/swapd/swap_state.rs:1765-1949 | In AliceCanceled the Refund label or its retrieval is there to move on with |
| RoundTrip.RestoreThenCheckpoint | src/swapd/runtime.rs:395-469 | Restoring any checkpoint into a fresh runtime and checkpointing again gives that very checkpoint, and every restored transaction is watched under a fresh task |
| RoundTrip.BroadcastAllAgain | src/swapd/syncer_client.rs:344-376 | Broadcasting what was pending again makes exactly that pending, in order |
| RoundTrip.WatchAllAgain | src/swapd/syncer_client.rs:115-140 | Watching the stored transactions again gives back the stored labels |
| Restart.RestoreKeeps | src/swapd/runtime.rs:395-469 | A swap restored from the last checkpoint of a sound history satisfies the whole invariant |
| Restart.PrefixSafe | src/swapd/runtime.rs:845-874 | Cut off anywhere, a sound history is one that a restart can use |
| Handling.HandleKeeps | src/swapd/runtime.rs:301-345 | Every legitimate message keeps the invariant; no error it ends in is one meant to be unreachable |
| Handling.HandleGrows | src/swapd/runtime.rs:347-477 | No message rewrites the history |
| Handling.CrashKeeps | src/swapd/runtime.rs:845-874 | A crash between any two sends of a message, and a restart, itself cut off between any two sends and started over any number of times, keep the invariant |
| Handling.LastRestart | src/swapd/runtime.rs:395-469 | However often restarts are cut off, the last one starts from the last checkpoint of a sound history that extends all that was sent before the first crash |
| Handling.LaunchKeeps | src/swapd/runtime.rs:46-147 | A freshly launched swap satisfies the invariant |
| Runs.StepKeeps | src/swapd/swap_state.rs:420-539 | Every step of the machine keeps all parts of the invariant |
| Runs.ExecuteKeeps | src/swapd/runtime.rs:666-722 | So does an execution with its whole replay |
| Runs.RecordKeeps | src/swapd/runtime.rs:583-612 | So does noting and caching what a syncer reports |
| Runs.ConfirmationKeeps | src/swapd/runtime.rs:583-612 | A new confirmation of Lock, Cancel or Buy replaces the kept one without breaking what relies on it |
| Stages.NextStaged | src/swapd/wallet.rs:299-465 | Every handler reaches a state whose wallet stage is set |
| Tables.NextTabled | src/swapd/syncer_client.rs:105-376 | Every handler leaves consistent task tables and the transactions and watches the next state relies on |
| Commitment.NextCommits | src/swapd/runtime.rs:845-874 | Every handler that sends what commits its party has stored the checkpoint that can finish first |
| Commitment.BobLockCommits | src/swapd/swap_state.rs:1054-1080 | Bob's point of no return: checkpoint first, then Lock |
| FundingWindow.NextFunds | src/swapd/swap_state.rs:1529-1665 | Every handler keeps funding requests and reports paired |
| Publishing.NextPublishes | src/swapd/runtime.rs:281-299 | Every handler keeps track of what the run has broadcast: held or published, never both lost |
| Publishing.BobRefundPublishes | src/swapd/swap_state.rs:1017-1085 | Bob's Lock step keeps Cancel and Refund unpublished and in hand |
| ReleaseOrder.NextReleases | src/swapd/swap_state.rs:1142-1179 | Every handler keeps the order in the history: address watched, payment, its transaction watched and final, signature, Buy watched and final, Buy asked for and retrieved, sweep sent and done |
| SentMessages.NextSends | src/swapd/runtime.rs:242-270 | Every protocol message sent names only transactions of this swap |
| HeardMessages.NextHeard | src/swapd/swap_state.rs:1017-1085 | Bob broadcasts Lock only after hearing Alice's refund signatures |
| Environments.InvExtends | src/swapd/runtime.rs:520-662 | What holds in an environment still holds when more becomes final or more was sent |
| SwapState.NextProceeds | src/swapd/swap_state.rs:420-539 | Every step follows the automaton, sends only what its state may send, changes only its own data, and without a transition changes next to nothing |
| SwapState.NextStores | src/swapd/runtime.rs:845-874 | A checkpoint stored by a step holds the state the step goes to, and is stored only by a transition |
| Temporal.NoWrapAround | src/swapd/temporal_safety.rs:43-60 | With valid parameters no 32-bit subtraction wraps |
| Temporal.SafeLeavesTheRaceMargin | src/swapd/temporal_safety.rs:95-110 | A safe count lies at least the race margin below any count at which cancelling, or punishing, is possible |
| Temporal.WrapAroundIsUnsafe | src/swapd/temporal_safety.rs:95-98 | Without valid parameters the subtraction can wrap, and then a count that can cancel is called safe |
| Temporal.MarginIffItFits | src/swapd/temporal_safety.rs:95-98 | The margin holds for all counts exactly if the race threshold fits into the timelock |
| Temporal.RefundMarginIffItFits | src/swapd/temporal_safety.rs:100-110 | Likewise between refunding and punishing |
| Temporal.PublishingIsMonotone | src/swapd/temporal_safety.rs:84-110 | What can be published stays so as confirmations grow |
| Temporal.CountdownsAreExact | src/swapd/temporal_safety.rs:90-115 | The countdowns reach zero exactly when publishing is possible |
| Temporal.FundingCountdownIsEarly | src/swapd/temporal_safety.rs:72-81 | The funding countdown passes zero three blocks before funding stops |
| SyncerClient.SyncerTasks.RegisterKeeps | src/swapd/syncer_client.rs:43-46 | A new task keeps ids bounded and tables disjoint |
| SyncerClient.SyncerTasks.WatchTxBtcKeeps | src/swapd/syncer_client.rs:115-140 | Watching a transaction keeps the tables valid |
| SyncerClient.SyncerTasks.RetrieveTxKeeps | src/swapd/syncer_client.rs:170-181 | So does asking for a transaction |
| SyncerClient.SyncerTasks.WatchAddrKeeps | src/swapd/syncer_client.rs:182-287 | So does watching an address |
| SyncerClient.SyncerTasks.SweepKeeps | src/swapd/syncer_client.rs:314-342 | So does a sweep |
| SyncerClient.SyncerTasks.BroadcastKeeps | src/swapd/syncer_client.rs:344-354 | So does a broadcast |
| SyncerClient.SyncerTasks.TransactionBroadcastedKeeps | src/swapd/syncer_client.rs:355-358 | So does the report that a broadcast went through |
| PeerDelivery.AtLeastOnce | src/peerd/runtime.rs:488-579 | Over any run of sends, losses, reconnects, duplicates and receipts in which each key is handed over once: every message handed over is still cached or was forwarded by the remote daemon, and cache keys are unique |
| PeerDelivery.HandedIsCached | src/peerd/runtime.rs:543-579 | However often sending fails, a connecting daemon ends with the message on the link and cached in place of one with its key |
| PeerDelivery.ReconnectResends | src/peerd/runtime.rs:665-720 | A reconnect, with any number of failed attempts, ends with the whole cache resent in order and nothing lost |
| PeerDelivery.LostExactlyByItsKey | src/peerd/runtime.rs:804-868 | A cached message not yet forwarded leaves the cache exactly when another message is handed over under its key or a receipt for its key arrives: losses, deliveries, shutdowns and reconnects never drop it |
| PeerDelivery.ReusedKeyIsLost | src/peerd/runtime.rs:804-868 | So a reused key can break the promise: the receipt for the first message drops the second |
| PeerDelivery.ListenerLosesTheMessage | src/peerd/runtime.rs:520-541 | A listener-side daemon gives back exactly what was cached, so the message whose sending failed comes back only if it was cached before |
| TradeRuns.OnlyTheMatchedMachineMoves | src/farcasterd/runtime.rs:964-1100 | Any event but an announcement moves or removes at most the first machine it matches, or adds one; the others stay in their order |
| TradeRuns.HelloKeepsEveryone | src/farcasterd/runtime.rs:296-312 | An announcement reaches the machines once, in order and in place, exactly up to the first that has something to tell its swap daemon and cannot reach it: that one and all after it are gone, and only then is there an error. Exactly the launched machines that it completes while their peer is registered start |
| TradeRuns.HelloLosesNobodyExactly | src/farcasterd/runtime.rs:296-312 | No machine is lost exactly if every machine with something to tell can reach its swap daemon |
| TradeRuns.OneIsLost | src/farcasterd/runtime.rs:296-312 | An announcement by a swap daemon that is gone again loses an open deal |
| TradeRuns.NextMarks | src/farcasterd/trade_state_machine.rs:214-259 | Every transition is one of the automaton's, and is marked by its one deed: accepting, launching or starting |
| TradeRuns.MadeDealsAreConsumedOnce | src/farcasterd/trade_state_machine.rs:694-779 | Over every run, errors included: launches as maker do not exceed accepted commitments, and those with the deals still open do not exceed the requests to make that deal |
| TradeRuns.LateCommitsAreRefused | src/farcasterd/runtime.rs:1075-1095 | Once a freshly made deal was accepted every further commitment to it is answered with DealNotFound and changes nothing |
| TradeRuns.DealsAreTakenOnce | src/farcasterd/trade_state_machine.rs:498-577 | Over every run, errors included, a deal is taken and its swap launched as taker at most once |
| TradeRuns.StartsMatchLaunches | src/farcasterd/trade_state_machine.rs:1016-1148 | Over every run MakeSwap and TakeSwap for a swap do not exceed its launches; without errors each launch was followed by one or still has a machine waiting |
| TradeStarts.StartedByTheLastHello | src/farcasterd/trade_state_machine.rs:1016-1148 | In any error-free run, with whatever other deals, commitments, connections and ends in between, in which the swap is not launched again and its peer is registered whenever somebody announces itself: the start of a launched swap is sent exactly once, by the announcement that completes syncers and swap daemon, and not before |
| TradeStarts.StartsInAnyOrder | src/farcasterd/trade_state_machine.rs:1016-1148 | At every moment of such a run exactly one machine waits for the swap, for exactly what has not announced itself, and none once everything has |
| TradeStarts.StepStaysPromptExactly | src/farcasterd/runtime.rs:296-312 | After any event, failed or not, some launched machine has all it needs and waits exactly if the event was a reconnection, for another deal, of the one peer that a machine still lacked |
| TradeStarts.RunIsPromptExactly | src/farcasterd/runtime.rs:296-312 | Over whole runs from a fresh daemon, errors included: no swap ever waits for nothing exactly if no turn was such a reconnection |
| TradeStarts.AStartIsMissed | src/farcasterd/trade_state_machine.rs:826-906 | A run without errors in which it happens: a deal is taken, the connection breaks before the swap daemon is up, and the maker connects again for a second deal |
| TradeStarts.ReconnectingStartsNobody | src/farcasterd/trade_state_machine.rs:826-906 | That reconnection starts nobody: a machine that lacked only this peer keeps waiting |
| TradeRuns.StepTidy | src/farcasterd/trade_state_machine.rs:106-205 | Whatever happens, machines stand on real peer connections and on their own network's syncers, and taken deals are known |
| TradeRuns.CleaningKeeps | src/farcasterd/runtime.rs:778-835 | Cleaning up after a swap terminates only what no machine uses, and all of that which can be reached |
| Trades.Position | src/farcasterd/runtime.rs:964-1028 | The position found is that of the first machine a request is for |
| Trades.ConnectPeer | src/farcasterd/runtime.rs:1156-1215 | A connection found is to the node asked for, on any socket: one still awaited, else one that stands, else a new one whose launch is logged; it is refused exactly if the node is not set up, or there is none and none can be launched |
| SwapdRuntime.Runtime.AttemptTransitionToInitTaker | src/swapd/swap_state.rs:587-663 | On TakeSwap for its own swap watches both heights, takes over the connection and the client, makes the wallet, stores Bob's funding key and commits; another swap's request changes nothing |
| SwapdRuntime.Runtime.AttemptTransitionToInitMaker | src/swapd/swap_state.rs:665-732 | On MakeSwap watches both heights first; a commitment in the maker's own role is refused after that, with Bob's key already stored |
| SwapdRuntime.Runtime.TryBobInitTakerToBobTakerMakerCommit | src/swapd/swap_state.rs:734-770 | Remembers the maker's commitment in the wallet and reveals; DealNotFound and an abort sweep the funding address |
| SwapdRuntime.Runtime.TryAliceInitTakerToAliceTakerMakerCommit | src/swapd/swap_state.rs:772-808 | Remembers the maker's commitment in the wallet and reveals; DealNotFound and an abort end the swap at once |
| SwapdRuntime.Runtime.AttemptTransitionToBobReveal | src/swapd/swap_state.rs:2061-2100 | Takes only a reveal that opens the commitment in the role that committed; a maker reveals back; then the fee is asked for |
| SwapdRuntime.Runtime.AttemptTransitionToAliceReveal | src/swapd/swap_state.rs:2102-2136 | Takes only a reveal that opens the commitment in the role that committed; a maker reveals back; nothing is watched |
| SwapdRuntime.Runtime.TryBobRevealToBobFeeEstimated | src/swapd/swap_state.rs:862-914 | A fee sets the required funding, tells the client the address and watches it from six blocks back |
| SwapdRuntime.Runtime.TryBobFeeEstimatedToBobFunded | src/swapd/swap_state.rs:916-1015 | A payment to the funding address closes the request before its amount is looked at; the exact amount builds and watches the three transactions, stores a checkpoint and then proposes them, any other amount is swept back |
| SwapdRuntime.Runtime.TryBobFundedToBobRefundProcedureSignatures | src/swapd/swap_state.rs:1017-1085 | Alice's signatures complete Lock, Cancel and Refund: the shared address and Buy are watched, the checkpoint with Lock pending is stored, and then Lock goes out |
| SwapdRuntime.Runtime.TryBobRefundProcedureSignaturesToBobAccordantLock | src/swapd/swap_state.rs:1087-1140 | An incoming payment at the AccLock address moves the watch from the address to the transaction; too small an amount is ignored, anything else is the interrupt's |
| SwapdRuntime.Runtime.TryBobAccordantLockToBobAccordantLockFinal | src/swapd/swap_state.rs:1142-1179 | A final count of the payment releases the Buy signature; anything else is the interrupt's |
| SwapdRuntime.Runtime.TryBobAccordantLockFinalToBobBuyFinal | src/swapd/swap_state.rs:1181-1256 | A final Buy spends its label on asking for the transaction, once; any retrieval drops its entry, and that of Buy gives the key, whose sweep is registered but not yet sent |
| SwapdRuntime.Runtime.TrySweep | src/swapd/swap_state.rs:1258-1281 | Any confirmation with a high enough count sends the registered sweep, whatever it is about |
| SwapdRuntime.Runtime.TryBobCancelFinalToSwapEnd | src/swapd/swap_state.rs:1283-1327 | A final Refund aborts both syncers' tasks, forgets the four transactions and ends in FailureRefund |
| SwapdRuntime.Runtime.TryBobCanceledToBobCancelFinal | src/swapd/swap_state.rs:1329-1363 | A final Cancel takes Refund out of the transactions and broadcasts it; without Refund it does nothing |
| SwapdRuntime.Runtime.TryAwaitingSweepToSwapEnd | src/swapd/swap_state.rs:1365-1393 | Success, or the abort, of the sweep it registered ends in FailureAbort |
| SwapdRuntime.Runtime.TryAliceRevealToAliceCoreArbitratingSetup | src/swapd/swap_state.rs:1395-1458 | Watches the proposed transactions before the wallet checks them, so that a refused setup stays watched; then keeps Cancel and Punish, stores the checkpoint with the signatures pending, and sends them |
| SwapdRuntime.Runtime.TryAliceCoreArbitratingSetupToAliceArbitratingLockFinal | src/swapd/swap_state.rs:1460-1527 | A final Lock fixes the creation height if there is none and watches the shared address from there; anything else is the interrupt's |
| SwapdRuntime.Runtime.TryAliceArbitratingLockFinalToAliceAccordantLock | src/swapd/swap_state.rs:1529-1665 | An empty address asks the client for funds, a Lock count past the window closes the request, and a payment moves the watch: too much goes to AliceCanceled, anything else on |
| SwapdRuntime.Runtime.TryAliceAccordantLockToAliceBuyProcedureSignature | src/swapd/swap_state.rs:1667-1721 | Watches Buy before the wallet checks it; then the kept Lock count alone decides: Cancel if it allows it, else Buy followed by a checkpoint |
| SwapdRuntime.Runtime.TryAliceBuyProcedureSignatureToSwapEnd | src/swapd/swap_state.rs:1723-1763 | A final Buy aborts both syncers' tasks, forgets Cancel and Punish and ends in SuccessSwap |
| SwapdRuntime.Runtime.TryAliceCanceledToAliceRefundOrAlicePunish | src/swapd/swap_state.rs:1765-1949 | By label, a final count asks for Refund, publishes Punish or Cancel once it may, or ends; the retrieved Refund gives the key, swept only if Monero was ever seen locked, and a retrieval under another label keeps its entry |
| SwapdRuntime.Runtime.TrySweepingToSwapEnd | src/swapd/swap_state.rs:1977-2059 | Success of the sweep it sent closes a funding request left open, aborts all tasks and ends with the given outcome |
| SwapdRuntime.Runtime.HandleBobSwapInterruptAfterLock | src/swapd/swap_state.rs:2140-2176 | A Lock count past the timelock broadcasts Cancel once; a seen Cancel goes to BobCanceled; an abort is answered with a failure |
| SwapdRuntime.Runtime.HandleAliceSwapInterruptAfterLock | src/swapd/swap_state.rs:2181-2235 | A seen Cancel closes an open funding request and goes to AliceCanceled, before it looks at whether Cancel may be broadcast |
| SwapdRuntime.Runtime.HandleAbortSwap | src/swapd/swap_state.rs:2237-2244 | Tells the client and ends in FailureAbort, with nothing sent to the syncers |
| SwapdRuntime.Runtime.HandleBobAbortSwap | src/swapd/swap_state.rs:2259-2280 | Registers and sends the sweep of the funding address before it tells the client, and waits for it |
| SwapdRuntime.Runtime.Next | src/swapd/swap_state.rs:421-539 | Each of the 27 states is served by its own handler |
| SwapdRuntime.Runtime.CheckpointState | src/swapd/runtime.rs:845-874 | Writes out the whole state in place: the stored checkpoint is that of the specification, collected from the maps by loops |
| SwapdRuntime.Runtime.Broadcast | src/swapd/runtime.rs:281-299 | Hands a transaction to the syncer in place, with its pending entry |
| SwapdRuntime.Runtime.HandleMsg | src/swapd/runtime.rs:301-345 | Refuses a peer daemon that is not the current one and a message of another swap before the machine sees it; then one execution with its replay |
| SwapdRuntime.Runtime.HandleSync | src/swapd/runtime.rs:520-662 | Notes heights, confirmations, retrievals that failed and broadcasts by the service they come from, keeps final bitcoin counts, and then runs the machine |
| SwapdRuntime.Runtime.Execute | src/swapd/runtime.rs:666-722 | Shows the message to the machine, keeps a peer message that moved nothing, forgets the kept one when one did, and replays; the mutual recursion ends |
| SwapdRuntime.Runtime.Replay | src/swapd/runtime.rs:702-715 | Shows the kept message, then the latest Buy, Lock and Cancel counts, in this order, stopping at the first error |
| SwapdRuntime.Runtime.Restore | src/swapd/runtime.rs:395-469 | A restart adopts the checkpoint's fields, watches and broadcasts again by loops what it lists, and resends its message |
| SwapdRuntime.Runtime.HandleCtl | src/swapd/runtime.rs:347-477 | Connection changes touch only the connection; a reconnected peer gets the queued requests once and the queue is emptied; the rest goes to the machine |
| SyncerStates.SyncerState.NewTaskId | src/swapd/syncer_client.rs:43-46 | Ids count up from one and are never used twice |
| SyncerStates.SyncerState.HandleHeightChange | src/swapd/syncer_client.rs:86-97 | A chain's height only grows |
| SyncerStates.SyncerState.FromHeight | src/swapd/syncer_client.rs:223-227 | A watch starts at most the given number of blocks back, and fewer only where the chain starts |
| SyncerStates.SyncerState.WatchTxBtc | src/swapd/syncer_client.rs:115-140 | One new id carries the task and the watch, and the label names the transaction from now on |
| SyncerStates.SyncerState.WatchTxXmr | src/swapd/syncer_client.rs:144-169 | One new id carries the task and the watch; monero transactions get no label |
| SyncerStates.SyncerState.RetrieveTxBtc | src/swapd/syncer_client.rs:170-181 | One new id carries the task and the retrieval, which keeps a copy of the task for retrying |
| SyncerStates.SyncerState.WatchAddrBtc | src/swapd/syncer_client.rs:182-218 | One new id carries the task and the address watch, from six blocks back |
| SyncerStates.SyncerState.WatchAddrXmr | src/swapd/syncer_client.rs:230-287 | The addendum for later checkpoints is set along with the address watch, from the given height or twenty blocks back |
| SyncerStates.SyncerState.Sweep | src/swapd/syncer_client.rs:314-342 | The new id is remembered as the one sweep of the swap |
| SyncerStates.SyncerState.Broadcast | src/swapd/syncer_client.rs:344-354 | The new id is pending until it is reported |
| SyncerStates.SyncerState.TransactionBroadcasted | src/swapd/syncer_client.rs:355-358 | A reported id is pending no more and its task is forgotten, so that it is not broadcast again after a restart |
| SyncerStates.SyncerState.PendingBroadcastTxs | src/swapd/syncer_client.rs:359-376 | The loop over the broadcasting ids lists exactly the transactions not yet reported as broadcast |
| SyncerStates.SyncerState.HandleTxConfs | src/swapd/syncer_client.rs:384-451 | Only a watched task counts: its label becomes final at the threshold and stays so, and its latest count replaces the one before |
| WalletStates.WalletState.HandleMakerCommit | src/swapd/wallet.rs:721-791 | The counterparty's commitment is remembered once, a second one ignored; a failed call leaves every field |
| WalletStates.WalletState.HandleReveal | src/swapd/wallet.rs:793-928 | Parameters and proof are set together after both checks; a failed call leaves every field |
| WalletStates.WalletState.ProcessFundingTx | src/swapd/wallet.rs:467-493 | The funding is taken once; a failed call leaves every field |
| WalletStates.WalletState.CreateCoreArb | src/swapd/wallet.rs:930-969 | The setup is built once from funding and both parameter sets; a failed call leaves every field |
| WalletStates.WalletState.HandleRefundProcedureSignatures | src/swapd/wallet.rs:971-1054 | The signed Buy is stored before Lock, Cancel and Refund are completed: a failure there leaves it, any other leaves every field |
| WalletStates.WalletState.HandleCoreArbitratingSetup | src/swapd/wallet.rs:1056-1146 | The setup is stored before anything is signed and each signature as it is made; which of them a failure leaves is said exactly |
| WalletStates.WalletState.HandleBuyProcedureSignature | src/swapd/wallet.rs:1148-1207 | Cancel and Buy are completed from the stored setup; no field changes |
| PeerdRuntime.PeerRuntime.ReconnectPeer | src/peerd/runtime.rs:665-720 | Dials until a connection stands, then puts the cache on the link in order and only then reports the reconnection; a failed send ends it there |
| PeerdRuntime.PeerRuntime.HandleMsg | src/peerd/runtime.rs:488-579 | A sent protocol message takes the place of the cached one with its key; a failed send gives everything back on the listener side, and on the other reconnects and tries again |
| PeerdRuntime.PeerRuntime.HandleReceipt | src/peerd/runtime.rs:804-868 | A receipt drops the first cached message with its key and touches nothing else |
| PeerdRuntime.PeerRuntime.HandleShutdown | src/peerd/runtime.rs:722-803 | A lost link is reported first; then the listener side gives everything back, the other reconnects |
| PeerdRuntime.PeerRuntime.Forget | src/peerd/runtime.rs:804-868 | The search and removal drop exactly the first cached message with the key |
| PeerdRuntime.PeerRuntime.GiveBack | src/peerd/runtime.rs:520-541 | The drained cache is given back whole and in order |
| TradeRuntime.FarcasterdRuntime.AttemptTransitionToMakeDeal | src/farcasterd/trade_state_machine.rs:425-496 | A failed bind or listen answers the client and makes no deal; otherwise the database hears of the deal before the client, and the deal is known only after both |
| TradeRuntime.FarcasterdRuntime.AttemptTransitionToTakerConnectOrTakeDeal | src/farcasterd/trade_state_machine.rs:498-577 | A deal known by identifier or already taken is refused, and no connection is asked for; a standing connection takes it at once, else the machine waits for one |
| TradeRuntime.FarcasterdRuntime.AttemptTransitionToTakerCommitted | src/farcasterd/trade_state_machine.rs:694-779 | The first matching commitment has the keys made before the deal is marked in progress; a revocation is always answered and ends only its own deal |
| TradeRuntime.FarcasterdRuntime.AttemptTransitionToTakeDeal | src/farcasterd/trade_state_machine.rs:826-906 | A connection to the maker is registered before the deal is taken; a failed one is dropped and both sides are told |
| TradeRuntime.FarcasterdRuntime.TransitionToSwapdLaunched | src/farcasterd/trade_state_machine.rs:958-1014 | Missing syncers are launched before the swap daemon; those registered are remembered as present |
| TradeRuntime.FarcasterdRuntime.AttemptTransitionToSwapdRunning | src/farcasterd/trade_state_machine.rs:1016-1148 | Learns from announcements only, follows the peer to another connection at its address, and starts the swap once syncers, daemon and peer are there, after telling it of a reconnection |
| TradeRuntime.FarcasterdRuntime.AttemptTransitionToEnd | src/farcasterd/trade_state_machine.rs:1262-1731 | An unreachable peer is unregistered before it is told to terminate, twice; the outcome goes to the database before the swap daemon ends and unused services are cleaned up |
| TradeRuntime.FarcasterdRuntime.MatchRequestToTradeStateMachine | src/farcasterd/runtime.rs:964-1028 | The search by position takes out the first matching machine and no other |
| TradeRuntime.FarcasterdRuntime.ProcessRequestWithStateMachines | src/farcasterd/runtime.rs:1030-1100 | The matched machine goes to the end of the vector with its next state, or is gone; an unmatched commitment, revocation or connection request is answered |
| TradeRuntime.FarcasterdRuntime.ShowToAll | src/farcasterd/runtime.rs:296-312 | The drain and push loop leaves the machines, in order, as the specification of an announcement does, also when it stops at an error |
| TradeRuntime.FarcasterdRuntime.HandleHello | src/farcasterd/runtime.rs:225-312 | A service is registered before the machines hear of it, but for a peer that a taker is waiting for and a syncer nobody launched |
| TradeRuntime.FarcasterdRuntime.ConsumedDealsContains | src/farcasterd/runtime.rs:865-870 | The scan finds a consumed deal with that identifier if there is one |
| TradeRuntime.FarcasterdRuntime.TerminateUnused | src/farcasterd/runtime.rs:796-835 | The loop over a copy of the services removes and tells each unused one that can be reached |
| TradeRuntime.FarcasterdRuntime.ConnectPeer | src/farcasterd/runtime.rs:1156-1215 | An awaited connection to the node is preferred to a standing one, and that to a new one |
| TradeRuntime.FarcasterdRuntime.HandleNewConnection | src/farcasterd/runtime.rs:736-753 | The placeholder for the address leaves the spawning services and the connection is registered |
| TradeRuntime.FarcasterdRuntime.HandleFailedConnection | src/farcasterd/runtime.rs:755-776 | The placeholder and the connection leave both sets, even if the connection cannot be told to terminate |
| TradeRuntime.FarcasterdRuntime.FindPeer | src/farcasterd/trade_state_machine.rs:1058-1072 | The scan finds the first registered service at the peer's address, in any iteration order |
| TradeRuntime.FarcasterdRuntime.Handle | src/farcasterd/runtime.rs:214-397 | Announcements go to all machines, a terminated peer is unregistered, anything else goes to one machine |
| SwapRuntime.Drain | src/swapd/runtime.rs:845-874 | The loop over the labels lists exactly the entries of the map |
| SwapRuntime.Gather | src/swapd/runtime.rs:395-469 | The loop over the list builds exactly the map it lists |

## Left out

- Cryptography, transaction building and wallets of the chains: opaque functions that may fail; of a
  transaction only its txid remains.
- Failing sends in swapd: a send is an entry in the log. A crash between two sends is modelled, the branch of
  `send_peer` that queues a request after a failed send is not; the queue itself is a parameter of the state.
- Task lifetimes, confirmation bounds, progress and state reports, statistics, fee and sweep amounts,
  automatic funding, waiting times, clocks, and the overflow of the task counter.
- Iteration order of hash maps and sets in swapd: labels and task ids are taken in a fixed order. In
  farcasterd the order is free.
- The wallet inside a state is a value, because the original runs a handler on a clone of the
  state; `WalletStates.WalletState` is that clone, and a failed call drops it.
- Kept confirmations are stored as task id and count; the rest of the event is not used again.
- Monero transaction hashes are unconstrained: the composition says nothing about the monero chain.
- Guarantees.BuyExcludesCancel: needs reported counts of Lock that do not fall; what a lower count can do
  is said exactly by `Publishing.BothExactlyWhenTheCountFell` and `FallingCounts.BothAreReached`.
- TradeStarts.StartedByTheLastHello: a second launch under the same swap identifier is not followed; the
  identifier of a swap a taker proposes is the taker's choice, and `TradeRuns.StartsMatchLaunches` counts both.
- PeerDelivery.AtLeastOnce: each key is handed over once; for a reused key it is false, exactly as
  `PeerDelivery.LostExactlyByItsKey` says. Ping and pong, and the bridge between the two threads of peerd, are left out.
- TradeRuntime.FarcasterdRuntime.AttemptTransitionToEnd: the connection states only a restored swap has, the
  clients that wait for progress, and the funding lists are left out.
- TradeRuntime.FarcasterdRuntime.MatchRequestToTradeStateMachine: the machines that restore a swap are left out.
- TradeRuntime.FarcasterdRuntime.ProcessRequestWithStateMachines: the machines for syncer requests, a second
  vector that is tried first, are left out; the syncers they use are a parameter.
- TradeRuntime.FarcasterdRuntime.HandleHello: the automatic restore when database and wallet are up, and the
  syncer machines, are left out.
- TradeRuntime.FarcasterdRuntime.Handle: progress reports, disconnection notices, information requests and
  requests to restore are left out.
- Deals carry what the daemons look at: identifier, roles, amounts for swapd; identifier, maker address,
  network for farcasterd.
- Database, message bus, process launching, command line, remote procedure calls and configuration: a call
  into them is a parameter that says whether it works.
- Signals, `Terminate` and the exit of processes, other than by a crash at any point.
