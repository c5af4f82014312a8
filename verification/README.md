# A verified model of libbtcwallet and bitcoin-payment-instructions

libbtcwallet is a bitcoin wallet that keeps small balances with a custodial service and moves them to its own
lightning node once that is worth the fee. bitcoin-payment-instructions is the parser it uses for whatever a user
pastes or scans. This project models the parts where something can go wrong between functions, tasks or restarts,
and proves what they keep. `dafny verify dfyconfig.toml` checks all of it.

## The rebalance protocol and the metadata store

`Store.dfy` models `TxMetadataStore` as a class over a key-value store: a map in memory, written through to text
keys (`Metadata.dfy`) and rebuilt when the wallet starts. The invariant is that the persisted namespace mirrors the
map, and a restart gives the map back exactly.

`Protocol.dfy` is the transition system of the tasks that share that store: the poll loop, any number of payments, and
the rebalances that both start. A step is one lock-protected operation on the store, or one answer of a service. So
other tasks, a listing or a restart can fall between any two of the three writes that end a rebalance.
`ProtocolSafety.dfy` proves the invariant of one step, `ProtocolRuns.dfy` the results for whole runs,
`ProtocolPanics.dfy` when exactly the two `expect`s fire, `ProtocolLimits.dfy` what the premises are needed for, and
`ProtocolSequential.dfy` that the steps, taken without interruption, do what the sequential code in `PollLoop.dfy`,
`RebalanceFlow.dfy` and `Pay.dfy` does.

The premises about the services are explicit:

- `Protocol.FreshIds`: each payment from custody has an id that the custodial service has not used before, each payment
  received over lightning for a rebalance has an id that is new to the wallet, and no id is used both for sending and for
  receiving. It is part of what a run is, and the only premise of most results: that restarts lose nothing, that inserts
  are new, that marked payments are complete, that transfers are in their place, and when the two `expect`s fire.
- `Protocol.Harmless`: a payment is not recorded anew while a transfer names it as its trigger, or while a rebalance that
  has marked it is still writing its legs (`ProtocolRuns.Careful`). libbtcwallet/src/lib.rs:642-644 says that retrying a
  BOLT 11 invoice can break this. The results about transfers and their triggers hold exactly under this premise.
- `Protocol.UpsertSafe`: a payment that has triggered a rebalance is not recorded anew at all (`ProtocolRuns.Safe`). It
  implies the former; marks are permanent exactly under this premise (`ProtocolRuns.OneWayExactly`).
- `Protocol.NeverReissued`: no lightning payment id is used twice for sending (`ProtocolRuns.NoRetries`). It implies
  the other two.

What they are needed for is proved too. `ProtocolLimits.LedgerSoundExactly` says that over any run the ledger is sound in
every state just when every recording is harmless; `RetryCanOrphanTransfers` and `RetryBetweenWrites` are runs that
break it, the latter by a retry that falls between the mark and the legs and shows only at the next write.
`RetryCanMarkTwice` is a run in which a payment is marked twice and has the legs of two rebalances.

The `expect` on marking (libbtcwallet/src/lib.rs:346) can fire (`ProtocolLimits.RetryCanPanic`). In any run it fires exactly
when the payment has been marked before and not recorded anew since, which is when the store has it as a marked payment
(`ProtocolPanics.MarkingPanicsExactly`); so never if no invoice is paid twice, and never for a payment in custody. Only in
safe runs is that the same as having been marked before. The `expect` of the poll loop (libbtcwallet/src/lib.rs:280) can fire even then
(`ProtocolLimits.PollCanDie`). It fires exactly when there is balance to move and every inbound payment that was listed
for the pass is recorded, none of them still plain, again in any run (`ProtocolPanics.PollDiesExactly`).

`History.dfy` models `list_transactions`, two payment lists and the metadata folded through a hash map, against a
declarative history with a line for each payment of the user's. `History.ListsAll` says what such a listing shows, field
by field: a line for each of the user's payments, with its own status, direction, amount, recorded type and time, and
with the fee of the transfer paid on its behalf on top of its own; and no other line. `HistoryFees.dfy` proves where the fees go, and
`HistoryAsserts.dfy` which of its debug assertions hold when.

## Payment instructions

`Parser.dfy` models `parse_resolved_instructions`: key matching, splitting, both passes over the parameters and the
amount patching are concrete; the parsers for addresses, invoices, offers and decimal amounts are arbitrary functions.
`Instructions.dfy` has the one-pass amount validator with its sentinel values, the accessors that depend on it, and
`PaymentInfo::set_amount`. `Bip321.dfy` says exactly which queries are accepted and proves forward compatibility.
`Parameters.dfy` says what each parameter contributes, read off its text, the external parsers and the network alone: which
method, description and callback, or which error. It does the same for the forms without a query, so every method of a
successful parse is for the network that was asked for (`Parameters.ParsedOnNetwork`).
`PercentEncoding.dfy` is the decoder for callback URIs.

`Amounts.dfy` and `BtcDecimal.dfy` model the bounded arithmetic and the decimal printer. `ReceiveUri.dfy` proves
end to end that the wallet's own receive URI parses back.

## Paying and rebalancing

`Pay.dfy` models `pay`, four phases of attempts against arbitrary services, against "the first success in the
schedule". `Pay.PaysExactly` says the same in terms of the two balances and the services' answers only: which payment
goes through, which calls are made before it, which error is reported, and what is recorded. `RebalanceFlow.dfy` models the
decision when and how much to move out of custody (`RebalanceFlow.Moves`, in milli-satoshis), and one whole rebalance.

## Where code and documentation differ

- The documentation of `recipient_description` (bitcoin-payment-instructions/src/lib.rs:214-219) mentions the `label` and
  `message` parameters. The code only checks that they are not repeated; the model follows the code.
- The documentation of `PaymentMethod::OnChain` (bitcoin-payment-instructions/src/lib.rs:58-66) mentions fallback
  addresses of BOLT 11 invoices. The code does not extract any, and neither does the model.
- `do_custodial_rebalance` only looks for payments of kind `Bolt11` (libbtcwallet/src/lib.rs:326), while the node lists a
  payment of an invoice over a channel opened on the fly as `Bolt11Jit`. The model follows the code: if the money
  arrives, a rebalance ends exactly when its invoice needs no such channel, and otherwise waits however long it looks
  (`RebalanceFlow.EndsExactly`, with an example in `RebalanceFlow.JitArrivalUnnoticed`).
- The amount of a URI is converted to milli-satoshis by a multiplication that wraps in a release build, before it is
  compared with 21 million bitcoin. An accepted URI that asks for an on-chain payment may therefore state a larger amount,
  exactly when its amount does not fit (`Bip321.WrittenAmountBounded`); `Bip321.WrittenAmountWraps` is such a URI.
- `list_transactions` asserts in debug builds that no recorded custodial payment is on-chain
  (libbtcwallet/src/lib.rs:416-417), although `pay` also tries on-chain methods from custody. The assertion holds because
  the only custodial wallet there is estimates no fee for anything but BOLT 11 invoices
  (libbtcwallet/src/custodial_wallet.rs:147-156, `Pay.CustodyPaysBolt11`); with one that pays on-chain it would not
  (`HistoryAsserts.CustodyOffChainExactly`).

## Model

| member | source | states |
|---|---|---|
| ProtocolRuns.TransfersHaveMarkedTriggers | libbtcwallet/src/lib.rs:345-356 | in every state of every careful run, also between the three writes and after a restart there, each transfer record lies under one of its own two ids and names a trigger that is in the store and marked |
| ProtocolRuns.OneLegOfEachKind | libbtcwallet/src/lib.rs:345-356 | records with the same trigger come from one rebalance: they are equal, and two of the same kind have the same id |
| ProtocolRuns.MarkedPaymentsComplete | libbtcwallet/src/lib.rs:502-504 | in any state of any run, a marked payment has both legs, unless its rebalance is writing them at the moment or a restart cut that off |
| ProtocolRuns.RestartsLoseNothing | libbtcwallet/src/store.rs:161-177 | a restart at any point of any run can read every key and value that it finds, and gives back the store exactly as it was |
| ProtocolRuns.RunOneWay | libbtcwallet/src/store.rs:201-217 | over any stretch of a safe run plain payments can only become marked, and marked payments and transfers stay |
| ProtocolRuns.MarkedAtMostOnce | libbtcwallet/src/store.rs:201-217 | over a whole safe run, restarts included, no payment is successfully marked twice |
| ProtocolPanics.MarkedTwiceIfRecordedAnew | libbtcwallet/src/store.rs:201-217 | in any run, only a payment that has been recorded anew in between can be marked a second time |
| ProtocolRuns.RunBase | libbtcwallet/src/lib.rs:242-364 | in every state of every run: what is persisted mirrors the memory, the mutex names the task in the critical section, ids are where they come from, transfers lie under their own ids, and marked payments are complete |
| ProtocolRuns.RunStepForward | libbtcwallet/src/store.rs:183-217 | in any run known payments stay known, custodial marks stay, and transfers stay what they are |
| ProtocolRuns.OneWayExactly | libbtcwallet/src/store.rs:183-217 | no step of a run takes a record back exactly when the run is safe |
| ProtocolRuns.InsertsAreNew | libbtcwallet/src/store.rs:196-199 | the debug assertion of `insert` holds in every run, for all four callers |
| ProtocolRuns.MarkingNeverPanics | libbtcwallet/src/lib.rs:312-346 | if no invoice is paid twice, the trigger is a plain payment whenever a rebalance gets to mark it, however long the mutex delayed it: the `expect` never fires |
| ProtocolPanics.MarkingPanicsExactly | libbtcwallet/src/lib.rs:312-346 | in any run the `expect` on marking fires exactly when the store has the trigger as a marked payment, which is when an earlier event has marked it and none since has recorded it anew; never for a payment in custody |
| ProtocolPanics.SafeMarkingPanicsExactly | libbtcwallet/src/lib.rs:312-346 | in a safe run, exactly when an earlier event has marked the same payment |
| ProtocolPanics.TriggersAreHistory | libbtcwallet/src/store.rs:183-217 | in any run the marked payments are those marked since they were last recorded |
| ProtocolPanics.MarksAreHistory | libbtcwallet/src/store.rs:201-217 | the marks of a state are those that the events before it made |
| ProtocolPanics.CustodialRebalancesSurvive | libbtcwallet/src/lib.rs:282-346 | the rebalances that the poll loop waits for never panic |
| ProtocolPanics.PollDiesExactly | libbtcwallet/src/lib.rs:244-283 | in any run a pass dies at its decision exactly when there is something to transfer and every inbound payment it listed is by then recorded, none as a plain payment, whatever other tasks did meanwhile |
| ProtocolPanics.PollDiesDeciding | libbtcwallet/src/lib.rs:242-289 | and the poll loop dies nowhere else |
| ProtocolRuns.RunCore | libbtcwallet/src/lib.rs:242-364 | the core invariant holds in every state of every careful run |
| ProtocolRuns.SafeIsCareful | libbtcwallet/src/lib.rs:640-648 | a run that never records a marked payment anew is careful |
| ProtocolRuns.NoRetriesSafe | libbtcwallet/src/lib.rs:640-648 | a run in which no invoice is paid twice never records a marked payment anew |
| ProtocolRuns.StepExpectant | libbtcwallet/src/lib.rs:242-364 | every step keeps what the `expect` relies on: each waiting rebalance and each candidate of the poll loop still has a plain payment, and no two rebalances wait for the same one |
| ProtocolRuns.StepOneWay | libbtcwallet/src/store.rs:183-217 | a step that records no marked payment anew takes no record back |
| ProtocolSafety.StepKeepsBase | libbtcwallet/src/lib.rs:242-364 | every step of every task, and a restart at any point, keeps persistence, the mutex, and where ids come from |
| ProtocolSafety.StepKeepsLegs | libbtcwallet/src/lib.rs:345-356 | and keeps transfers in their place and marked payments complete |
| ProtocolSafety.StepKeepsLedger | libbtcwallet/src/lib.rs:345-356 | every harmless step keeps all triggers of transfers marked, and one rebalance per trigger |
| ProtocolSafety.StepKeepsMarks | libbtcwallet/src/store.rs:201-217 | every step that records no marked payment anew keeps the marks so far to be the marked payments, each once |
| ProtocolSafety.StepKeepsInv | libbtcwallet/src/lib.rs:242-364 | such a step keeps all of it |
| ProtocolSafety.RestartBase | libbtcwallet/src/store.rs:161-177 | a restart keeps the base and the store |
| ProtocolSafety.MarkLedger | libbtcwallet/src/store.rs:201-217 | marking a plain payment keeps every transfer sound, and no transfer named it before |
| ProtocolSafety.LegLedger | libbtcwallet/src/lib.rs:355-356 | writing a leg under a new id keeps all transfers sound and one rebalance per trigger |
| ProtocolSafety.LedgerKept | libbtcwallet/src/lib.rs:242-364 | transfers stay sound if the same ones are there and no trigger in use loses its mark |
| ProtocolLimits.RetryBreaksExactly | libbtcwallet/src/lib.rs:640-648 | recording a lightning payment keeps the ledger sound exactly when no transfer names it and no rebalance that has marked it is still writing its legs |
| ProtocolLimits.LedgerSoundExactly | libbtcwallet/src/lib.rs:242-364 | over any run the ledger is sound in every state exactly when every recording of a lightning payment is harmless in this sense |
| ProtocolLimits.RetryBetweenWrites | libbtcwallet/src/lib.rs:345-356 | there is a run in which a retry between the mark and the legs, named by no transfer, leads to a transfer without a marked trigger at the next write |
| ProtocolLimits.PollCanDie | libbtcwallet/src/lib.rs:275-281 | there is a run without any retry in which the `expect` of the poll loop fires: the only inbound payment has already paid for a rebalance |
| ProtocolLimits.RetryCanOrphanTransfers | libbtcwallet/src/lib.rs:640-648 | there is a run whose retried invoice leaves a transfer without a marked trigger |
| ProtocolLimits.RetryCanMarkTwice | libbtcwallet/src/lib.rs:640-648 | there is a run in which a payment, recorded anew, is marked a second time without a panic, and has two lightning legs |
| ProtocolLimits.RetryCanPanic | libbtcwallet/src/lib.rs:345-346 | there is a run, safe in the weaker sense, in which the `expect` on marking fires |
| ProtocolSequential.BookkeepingAgrees | libbtcwallet/src/lib.rs:345-356 | the three writes in a row leave the records of an uninterrupted rebalance |
| ProtocolSequential.ScanAgrees | libbtcwallet/src/lib.rs:247-274 | the poll steps for one entry do what the sequential pass does for it |
| ProtocolSequential.DecisionAgrees | libbtcwallet/src/lib.rs:275-283 | the poll step that decides charges the same payment as the sequential pass, and dies where it dies |
| ProtocolSequential.PaymentAgrees | libbtcwallet/src/lib.rs:604-664 | accepting and recording a payment, as two steps, write the record of `pay` and queue a rebalance for payments of the own node only |
| PollLoop.PollOnce | libbtcwallet/src/lib.rs:244-283 | a pass records exactly the unknown inbound payments and changes no other record; it charges the smallest new one, else the latest plain one, else dies |
| PollLoop.ChargedIsPlain | libbtcwallet/src/lib.rs:247-282 | the charged payment is inbound, listed and plain; a new one asks for no more milli-satoshis than any other new one, and has the least id among equals; an old one is the latest plain one, and only charged if there is no new one |
| PollLoop.DiesExactly | libbtcwallet/src/lib.rs:277-281 | a pass that has to charge somebody dies exactly when every inbound payment is recorded and none is plain |
| PollLoop.NewOnesAre | libbtcwallet/src/lib.rs:264-274 | the candidates are listed inbound payments without metadata; there are none just when all have metadata |
| PollLoop.NewOnesComplete | libbtcwallet/src/lib.rs:264-274 | each of them is a candidate, with the amount of its first entry in the list |
| PollLoop.NewOnesDistinct | libbtcwallet/src/lib.rs:264-274 | and just once |
| PollLoop.LatestPlainIs | libbtcwallet/src/lib.rs:256-258 | the fallback is a plain payment with the latest time, and is missing just when there is no plain inbound payment |
| PollLoop.LatestPlainFirst | libbtcwallet/src/lib.rs:256-258 | of several with the latest time it is the first in the list |
| Protocol.Smallest | libbtcwallet/src/lib.rs:276-277 | the head of the sorted candidates is one of them, its milli-satoshis are the least, and its id is the least among equals |
| Store.TxMetadataStore.constructor | libbtcwallet/src/store.rs:161-177 | `new` loads every listed key; on what the store itself wrote it gives the invariant and exactly the mirrored map |
| Store.TxMetadataStore.DoSet | libbtcwallet/src/store.rs:183-191 | memory and disk get the entry together, the invariant stays, other namespaces are untouched, and the result says whether the key was there |
| Store.TxMetadataStore.Upsert | libbtcwallet/src/store.rs:192-194 | sets the entry and keeps the invariant |
| Store.TxMetadataStore.Insert | libbtcwallet/src/store.rs:196-199 | in a release build also overwrites |
| Store.TxMetadataStore.SetTxCausedRebalance | libbtcwallet/src/store.rs:201-217 | succeeds exactly on a plain payment, which becomes a trigger with the same time and type; otherwise nothing changes |
| Store.KvStore.Write | libbtcwallet/src/store.rs:187-188 | changes one key of one namespace |
| Store.KvStore.List | libbtcwallet/src/store.rs:162-163 | lists exactly the keys of the namespace |
| Store.ReloadExact | libbtcwallet/src/store.rs:161-177 | loading the mirror of a map gives back that map, in whatever order the keys are listed |
| Store.ReloadAfterOperations | libbtcwallet/src/store.rs:161-217 | after any operations on a new store, loading the disk gives exactly the memory |
| Store.AfterOneMore | libbtcwallet/src/store.rs:183-217 | of a series of operations the last decides about its own payment, and those before it about all others |
| Store.SetMirrored | libbtcwallet/src/store.rs:183-190 | a write through an injective key keeps the mirror |
| Store.MarkMeans | libbtcwallet/src/store.rs:201-217 | marking turns a plain payment into a trigger with the same time and type, on disk too, leaves every other entry alone, and does nothing to anything else |
| Store.LoadedExactly | libbtcwallet/src/store.rs:161-177 | loading panics exactly if a listed key or its value cannot be read |
| Metadata.KeyRoundTrip | libbtcwallet/src/store.rs:56-82 | every id of either kind is read back from its key |
| Metadata.UnHexHex | libbtcwallet/src/store.rs:59-70 | reading hexadecimal undoes writing it |
| Metadata.HexDigits | libbtcwallet/src/store.rs:59 | each byte is written as its high and its low digit, in lower case |
| Metadata.UnHexReads | libbtcwallet/src/store.rs:70 | exactly pairs of hexadecimal digits are read |
| Metadata.UnHexDigits | libbtcwallet/src/store.rs:70 | and each pair is read as the byte that it stands for, whatever its case |
| Metadata.KeyForm | libbtcwallet/src/store.rs:56-62 | the key of a lightning payment is `LN-` and 64 digits, that of a custodial one `CU-` and the UUID |
| Metadata.ReadKeyExactly | libbtcwallet/src/store.rs:65-80 | a key is read just if it has at least four characters, one of the two prefixes, and an id of that kind behind it |
| Metadata.WalletCodecLawful | libbtcwallet/src/store.rs:56-82 | these keys, with any lawful value encoding, are what the store needs |
| History.ListTransactions | libbtcwallet/src/lib.rs:367-515 | the listing is sorted by time and, with unique ids, a permutation of the declarative history, whatever the order of the hash map; it has one line for each of the user's payments, showing its status, direction, amount, type, time and fees, and no other line |
| History.ListingIsHistory | libbtcwallet/src/lib.rs:384-511 | what the three loops push is a permutation of the history: each recorded payment of the user's and each completed unrecorded lightning payment once, no transfer, and the triggers with the fees of their transfers |
| History.HistoryShowsAll | libbtcwallet/src/lib.rs:384-511 | the history has exactly one line for each payment recorded as a payment or marked, and for each completed unrecorded lightning payment, and that line shows it field by field: status, direction, amount, recorded type and time, and its fee with that of its transfer on top |
| History.ListsAllMeans | libbtcwallet/src/lib.rs:367-515 | so each of those payments has a line in the listing that shows it, and each line of the listing shows one of them |
| History.PlainCustodialShows | libbtcwallet/src/lib.rs:415-425 | each line of the first loop shows the amount, fee, status and direction of its payment, and the type and time on record |
| History.PlainLightningShows | libbtcwallet/src/lib.rs:470-498 | each line of the second loop shows the amount, or zero if it is unknown, no fee, and the recorded time or else that of the last update |
| History.LightningTransactionShows | libbtcwallet/src/lightning_wallet.rs:31-63 | the type for each of the six kinds and both directions, and the other fields |
| History.SendFeeExactly | libbtcwallet/src/lib.rs:384-397 | the fee charged for a transfer is that of the last listed payment recorded, under its own id, as sending it for the trigger |
| History.NoSendFee | libbtcwallet/src/lib.rs:384-397 | there is one exactly if such a payment is listed |
| History.ReceiveFeeExactly | libbtcwallet/src/lib.rs:438-449 | likewise for receiving, which costs nothing |
| History.FoldCustodial | libbtcwallet/src/lib.rs:384-435 | the first loop pushes the plain payments, each with its own amount, fee, status and direction and its recorded type and time, and the hash map agrees with the list for every trigger |
| History.FoldLightning | libbtcwallet/src/lib.rs:436-500 | the second loop adds plain and unrecorded completed payments, and the hash map agrees with both lists |
| History.AddCharged | libbtcwallet/src/lib.rs:502-511 | in any order of the keys, the third loop adds just the listed triggers, fees included |
| History.AddCustodialCollects | libbtcwallet/src/lib.rs:385-413 | one more custodial payment leaves the hash map in agreement with the longer list |
| History.AddLightningCollects | libbtcwallet/src/lib.rs:436-473 | the same for a lightning payment |
| History.TriggersAre | libbtcwallet/src/lib.rs:502-511 | the marked payments in the lists are exactly the keys that have a transaction to show |
| History.ShownAmongWithout | libbtcwallet/src/lib.rs:502-511 | taking a key out of the hash map takes out just its transaction, wherever it comes in the order |
| History.SortByTimeSorts | libbtcwallet/src/lib.rs:513 | sorting orders by time |
| History.SortByTimeKeeps | libbtcwallet/src/lib.rs:513 | and keeps every transaction |
| HistoryFees.FeesConserved | libbtcwallet/src/lib.rs:384-511 | the listing charges at most what custody charged for payments with metadata, less transfers whose trigger is not listed; it charges exactly that just when no fee saturates |
| HistoryFees.ReachableFeesConserved | libbtcwallet/src/lib.rs:367-515 | with the store of any state of any careful run and all triggers listed, the fees of a listing add up to those of all custodial payments with metadata, exactly when no fee saturates |
| HistoryFees.SendsAreLegFees | libbtcwallet/src/lib.rs:393-397 | if no trigger has two custodial legs, what the triggers bear is what their transfers cost |
| HistoryFees.ReachableOneLeg | libbtcwallet/src/lib.rs:345-356 | in a reachable store no trigger has two custodial legs |
| HistoryFees.SumFeesPermuted | libbtcwallet/src/lib.rs:513 | the total does not depend on the order of the listing |
| HistoryAsserts.LoopAssertsHold | libbtcwallet/src/lib.rs:391-459 | the assertions of both loops about legs and triggers hold in every state of every careful run, if neither list repeats an id |
| HistoryAsserts.EntryAssertsExactly | libbtcwallet/src/lib.rs:502-505 | in any run, if both lists hold every payment with metadata, an entry passes the assertions of the third loop exactly when its trigger is marked and both legs are recorded |
| HistoryAsserts.EntryAssertsHold | libbtcwallet/src/lib.rs:502-505 | so in a careful run every entry passes unless its rebalance is writing the legs or a restart cut that off |
| HistoryAsserts.CustodyOffChainExactly | libbtcwallet/src/lib.rs:416-417 | the assertion that custodial payments are not on-chain holds throughout a run exactly when the run records none from custody as on-chain |
| Pay.PayOrder | libbtcwallet/src/lib.rs:604-739 | a success writes exactly one record, with the type of its method, and, from the own node, queues one rebalance charged to it; a failure writes nothing; which payment succeeds, the calls and the error are spelled out over the balances and the services' answers |
| Pay.PlayExactly | libbtcwallet/src/lib.rs:604-738 | the first attempt whose source covers amount and fee and whose service accepts goes through, lightning before on-chain and custody before the own node; the calls are the covered attempts up to it; without one the error is that of the last covered attempt of the own node, else of custody, else insufficient funds |
| Pay.VerdictExactly | libbtcwallet/src/lib.rs:611-664 | an attempt is made exactly when the balance of its own source covers amount and estimated fee, and its verdict is what that service answers |
| Pay.ScheduleIs | libbtcwallet/src/lib.rs:666-732 | each method is scheduled once for each source, lightning first, then custody first, then in the order listed |
| Pay.TriedAre | libbtcwallet/src/lib.rs:611-652 | the calls are the covered attempts, in that order |
| Pay.RunSchedule | libbtcwallet/src/lib.rs:666-732 | the four phases in turn play the schedule and record only its success |
| Pay.PlayIsFirstSuccess | libbtcwallet/src/lib.rs:666-738 | the first success in the schedule decides and nothing is called after it; without one every affordable attempt is called and the error is the last lightning one, else the last custodial one, else insufficient funds (`PlayExactly` has this without the verdicts) |
| Pay.PhaseIs | libbtcwallet/src/lib.rs:666-732 | a phase has each method of its kind exactly once, in order |
| Pay.TriedAffordable | libbtcwallet/src/lib.rs:611-640 | every call to custody has amount plus its fee within the custodial balance, and every call to the node within the node's, for balances below 21 million bitcoin |
| Pay.PaidIsScheduled | libbtcwallet/src/lib.rs:611-664 | the payment that succeeded is one of the methods, under an id of the service that made it |
| Pay.CustodyPaysBolt11 | libbtcwallet/src/custodial_wallet.rs:147-166 | if custody estimates no fee for other methods, whatever it pays is a BOLT 11 invoice and is recorded so; a record under a custodial id is on-chain exactly when custody paid an on-chain method |
| Pay.RunPhase | libbtcwallet/src/lib.rs:666-684 | one of the four loops: plays its phase, stops at a success, and records only that |
| Pay.Try | libbtcwallet/src/lib.rs:611-664 | one attempt writes a record just when it succeeds |
| Amounts.CoveredByMeans | bitcoin-payment-instructions/src/amount.rs:61-67 | the saturating comparison that guards a payment is the exact one, except for a balance at the cap |
| RebalanceFlow.TransferBounds | libbtcwallet/src/lib.rs:295-310 | a transfer exceeds the minimum, fits the balance and leaves custody within its limit; a refusal means that the balance is at most limit plus minimum |
| RebalanceFlow.TransferExactly | libbtcwallet/src/lib.rs:295-310 | a transfer is all of the balance if keeping what lightning cannot receive would exceed the limit, else the smaller of balance and receivable, spelled out in milli-satoshis, and there is one exactly when that exceeds the minimum |
| RebalanceFlow.DefaultsKeepCustodySmall | libbtcwallet/src/lib.rs:128-137 | with the defaults custody keeps at most 100,000 satoshis after a transfer, and is left with at most 105,000 without one |
| RebalanceFlow.RefusedExactly | libbtcwallet/src/lib.rs:295-310 | a transfer is refused exactly when the balance is not worth it, or the receivable part is not and nothing forces more |
| RebalanceFlow.SeriesBounded | libbtcwallet/src/lib.rs:295-364 | without deposits n rebalances need n times (minimum + 1) of initial balance |
| RebalanceFlow.JitOnlyWhenForced | libbtcwallet/src/lightning_wallet.rs:146-155 | with the same estimate a rebalance opens a channel exactly when it moves more than the estimate, which is when it must move everything and that is more |
| RebalanceFlow.LookExactly | libbtcwallet/src/lib.rs:325-337 | a look goes by the first payment of kind `Bolt11` with the hash: none or a pending one goes on waiting, a failed one gives up, a completed one has arrived |
| RebalanceFlow.AwaitedExactly | libbtcwallet/src/lib.rs:323-341 | the wait goes on exactly as long as every look is undecided, and else ends with the first decided one |
| RebalanceFlow.ArrivalNoticedExactly | libbtcwallet/src/lib.rs:323-341 | if the node lists payments by how their invoice was made, nothing is ever found over a channel opened on the fly, and otherwise arriving money is |
| RebalanceFlow.EndsExactly | libbtcwallet/src/lib.rs:295-364 | if the money arrives, the rebalance completes exactly when its invoice needs no channel opened on the fly; with an unchanged estimate, unless it must move everything and the balance exceeds the estimate |
| RebalanceFlow.JitArrivalUnnoticed | libbtcwallet/src/lib.rs:324-342 | an input: default limits, no channel, twice the custodial limit in custody; the payment completes and the wait goes on |
| RebalanceFlow.AwaitReceipt | libbtcwallet/src/lib.rs:322-342 | the wait ends with the first look that decides |
| RebalanceFlow.DoCustodialRebalance | libbtcwallet/src/lib.rs:312-364 | only a completed rebalance writes, and it writes exactly the mark and both legs; it has moved exactly the amount that the decision allows, by the payment that custody made for its invoice; with an unchanged estimate it completes only if it did not need a channel opened on the fly |
| RebalanceFlow.OutcomeExactly | libbtcwallet/src/lib.rs:312-364 | which of the outcomes a rebalance has: no transfer, no invoice, not paid, lost, waiting, or completed with exactly that amount, and each just in its case |
| RebalanceFlow.RecordedMeans | libbtcwallet/src/lib.rs:345-356 | afterwards the trigger is marked with its old time and type, both ids hold the same transfer, and nothing else has changed |
| Instructions.VerdictIsConsistency | bitcoin-payment-instructions/src/lib.rs:462-502 | the validator accepts exactly the lists in which no amount exceeds 21 million bitcoin, all or none have amounts, lightning amounts agree, and all are within 100 sats |
| Instructions.VerdictOrderFree | bitcoin-payment-instructions/src/lib.rs:462-502 | acceptance does not depend on the order of the methods |
| Instructions.VerdictErrors | bitcoin-payment-instructions/src/lib.rs:462-502 | which error is reported: that of the first method that asks for too much or for another amount over lightning, else that some have no amount, else that they are too far apart |
| Instructions.AskedFor | bitcoin-payment-instructions/src/lib.rs:79-93 | what each kind of method asks for, over its own fields; an offer in another currency asks for nothing |
| Instructions.SentinelExact | bitcoin-payment-instructions/src/lib.rs:495 | the sentinel test is true exactly when some method had an amount, also for 0 and for 21 million bitcoin |
| Instructions.SpreadMeans | bitcoin-payment-instructions/src/lib.rs:499-502 | maximum less minimum is within the bound exactly when every pair of amounts is |
| Instructions.CheckAmounts | bitcoin-payment-instructions/src/lib.rs:462-502 | the imperative pass gives that verdict, first error first |
| Instructions.AccessorsAgree | bitcoin-payment-instructions/src/lib.rs:160-207 | on well-formed instructions both accessors speak for every method of their kind, and the maximum is missing just when all amounts are and is else at most 100 sats above each |
| Instructions.PaymentInstructions.MaxAmount | bitcoin-payment-instructions/src/lib.rs:160-170 | the loop finds the largest amount |
| Instructions.LargestAmountIs | bitcoin-payment-instructions/src/lib.rs:160-170 | which is attained, an upper bound, and missing just when no method has an amount |
| Instructions.FirstAmountIs | bitcoin-payment-instructions/src/lib.rs:180-207 | the scan finds the amount of a method of its kind if there is one |
| Instructions.FirstAmountFirst | bitcoin-payment-instructions/src/lib.rs:180-207 | it is that of the first one in the list |
| Instructions.SetAmountSucceeds | libbtcwallet/src/lib.rs:151-162 | for well-formed instructions an amount can be set exactly when none is asked for or some method asks for just that, and then it is within 100 sats of every amount asked for, and what is paid is those instructions with just that amount |
| Parser.ParsedWellFormed | bitcoin-payment-instructions/src/lib.rs:302-558 | every successful parse of every input form gives well-formed instructions |
| Parser.PaymentInstructionsReliable | bitcoin-payment-instructions/src/lib.rs:608-622 | with name resolution included, a successful parse has a method, honest accessors, a maximum within 100 sats, and settable amounts as documented |
| Parser.QueryWellFormed | bitcoin-payment-instructions/src/lib.rs:449-502 | after the patching all on-chain methods of a query have the same amount |
| Parameters.ParsedOnNetwork | bitcoin-payment-instructions/src/lib.rs:302-558 | every method of every successful parse is for the network that was asked for: the invoice's own, or one that the offer or the address allows |
| Parameters.KeysRead | bitcoin-payment-instructions/src/lib.rs:324-412 | which names are read as which key, whatever their case |
| Parameters.BcParameter | bitcoin-payment-instructions/src/lib.rs:324-342 | `bc` without a value, with another prefix than `bc1`, with no address or one for another network fails, each with its error; else it adds that address |
| Parameters.LightningParameterIs | bitcoin-payment-instructions/src/lib.rs:343-359 | `lightning` adds an invoice of the network with its description, or fails with one of three errors |
| Parameters.LnoParameter | bitcoin-payment-instructions/src/lib.rs:360-374 | `lno` adds an offer that supports the network with its description, or fails with one of three errors |
| Parameters.SchemesRefused | bitcoin-payment-instructions/src/lib.rs:388-404 | a callback is refused exactly if its scheme is one of twelve, whatever its case |
| Parameters.PopParameter | bitcoin-payment-instructions/src/lib.rs:382-409 | `pop` keeps a callback that is escaped right, UTF-8 and not refused, and else fails; `req-pop` also fails if the caller supports no callbacks |
| Parameters.SecondPassParameters | bitcoin-payment-instructions/src/lib.rs:417-447 | what `amount`, `label` and `message` contribute; the amount is converted with a wrap at 2^64 |
| Parameters.QueryErrors | bitcoin-payment-instructions/src/lib.rs:321-502 | which error a query ends with: that of the first failing parameter, else that of the second pass, else that there is no method, else that of the amounts |
| Parameters.FirstFailure | bitcoin-payment-instructions/src/lib.rs:322-413 | the first failing parameter decides, whatever follows |
| Parameters.SecondPassFails | bitcoin-payment-instructions/src/lib.rs:414-448 | the second pass fails at the first parameter that repeats one or has a bad amount, for that reason |
| Parameters.FirstPassKeepsDescription | bitcoin-payment-instructions/src/lib.rs:350-369 | the description is that of the last invoice or offer that has one |
| Parameters.FirstPassKeepsCallback | bitcoin-payment-instructions/src/lib.rs:382-405 | the callback is the last one |
| Parameters.QueryKeepsLast | bitcoin-payment-instructions/src/lib.rs:321-507 | so it is for an accepted query |
| Parameters.LightningUriExactly | bitcoin-payment-instructions/src/lib.rs:509-523 | a `lightning:` URI is an invoice of the network and nothing else, or one of two errors |
| Parameters.BareExactly | bitcoin-payment-instructions/src/lib.rs:524-557 | any other text is tried as an address, an invoice and an offer in that order; the first that it can be read as decides, also by its network |
| Parameters.BitcoinUriExactly | bitcoin-payment-instructions/src/lib.rs:309-321 | the body of a `bitcoin:` URI is empty or an address of the network, and not empty without a query |
| Parameters.NameRecorded | bitcoin-payment-instructions/src/lib.rs:608-622 | a human readable name is resolved first, and recorded with its proof |
| Parser.ParseResolvedInstructions | bitcoin-payment-instructions/src/lib.rs:302-558 | the imperative parser computes the specified result, well-formed if successful |
| Parser.ParseQueryInstructions | bitcoin-payment-instructions/src/lib.rs:321-507 | both passes, patching and validation |
| Parser.ScanParameters | bitcoin-payment-instructions/src/lib.rs:322-413 | the first loop pushes the methods in order and stops at the first failure |
| Parser.ScanExtras | bitcoin-payment-instructions/src/lib.rs:414-448 | the second loop, with its rules about repetition |
| Parser.PatchAmounts | bitcoin-payment-instructions/src/lib.rs:449-456 | the amount goes into every on-chain method and nowhere else |
| Bip321.QueryAccepted | bitcoin-payment-instructions/src/lib.rs:321-507 | a query is accepted exactly when no parameter fails, none is repeated that must not be, and the methods are there and consistent; the methods are those of body and parameters in order |
| Bip321.FirstPassAccepts | bitcoin-payment-instructions/src/lib.rs:322-413 | the first pass reports the first failure and else collects every method |
| Bip321.SecondPassAccepts | bitcoin-payment-instructions/src/lib.rs:414-448 | the second pass succeeds exactly when there is one readable amount at most, and no label or message after one with a value |
| Bip321.AcceptedUri | bitcoin-payment-instructions/src/lib.rs:306-448 | an accepted URI has only known required parameters and at most one amount, which is readable |
| Bip321.AmountApplied | bitcoin-payment-instructions/src/lib.rs:414-456 | the amount parameter of an accepted query is what every on-chain method asks for; without one they ask for none |
| Bip321.WrittenAmountBounded | bitcoin-payment-instructions/src/lib.rs:429-472 | the amount that an accepted query with an on-chain method states is at most 21 million bitcoin, and is the amount asked for, exactly when the conversion does not wrap |
| Bip321.WrittenAmountWraps | bitcoin-payment-instructions/src/lib.rs:306-502 | a URI with any address and the smallest amount that wraps, more than there is, is accepted and taken to ask for 384 milli-satoshis |
| Bip321.AmountIgnored | bitcoin-payment-instructions/src/lib.rs:414-456 | where every method is a lightning one, any readable amount gives the same result |
| Bip321.RequiredKeys | bitcoin-payment-instructions/src/lib.rs:410-412 | a `req-` key is refused exactly when it is not one of the seven known ones |
| Bip321.ForwardCompatible | bitcoin-payment-instructions/src/lib.rs:321-448 | an unknown optional parameter at any position changes nothing, as BIP 321 asks under "Forward compatibility" |
| Bip321.ForwardCompatibleNewQuery | bitcoin-payment-instructions/src/lib.rs:309-508 | nor does a query of only such a parameter on a URI that had none |
| Bip321.UriTextParses | bitcoin-payment-instructions/src/lib.rs:309-322 | the text of a URI is taken apart into the body and parameters that it was made of |
| Text.SplitOnceAt | bitcoin-payment-instructions/src/lib.rs:271-273 | splitting happens at the first needle |
| Text.SplitJoin | bitcoin-payment-instructions/src/lib.rs:322 | splitting undoes joining |
| Text.JoinSplit | bitcoin-payment-instructions/src/lib.rs:322 | joining undoes splitting |
| Text.EqIgnoreCaseIsUpper | bitcoin-payment-instructions/src/lib.rs:324 | texts that are equal up to case are those with the same upper-case form |
| PercentEncoding.UnescapedSucceeds | bitcoin-payment-instructions/src/lib.rs:275-292 | decoding succeeds exactly if all escapes are decimal and the bytes are UTF-8; it undoes the encoder that escapes the percent sign |
| PercentEncoding.UnPercentEncode | bitcoin-payment-instructions/src/lib.rs:275-292 | the byte loop computes that |
| PercentEncoding.DecodeSucceeds | bitcoin-payment-instructions/src/lib.rs:279-290 | the bytes are there exactly if each `%` is followed by two decimal digits |
| PercentEncoding.DecodeConcat | bitcoin-payment-instructions/src/lib.rs:275-292 | decoding distributes over concatenation outside escapes |
| PercentEncoding.DecodeEncode | bitcoin-payment-instructions/src/lib.rs:275-292 | and undoes the encoder |
| PercentEncoding.DecodeAgreesWithRfc | bitcoin-payment-instructions/src/lib.rs:279-290 | where it succeeds it agrees with section 2.1 of RFC 3986 |
| PercentEncoding.HexLettersRefused | bitcoin-payment-instructions/src/lib.rs:283-285 | but it covers strictly less |
| BtcDecimal.FormatExact | bitcoin-payment-instructions/src/amount.rs:90-105 | what is printed reads back as exactly the amount, and is canonical: no leading zeros, a point only for a fraction, no trailing zero |
| BtcDecimal.FormatShortest | bitcoin-payment-instructions/src/amount.rs:90-105 | no numeral for the same amount is shorter, and the only canonical one is the printed one |
| BtcDecimal.FormatAmount | bitcoin-payment-instructions/src/amount.rs:90-105 | the trimming loop ends with 1 to 8 digits and prints the amount, rounded up to whole satoshis |
| BtcDecimal.TrimmedReads | bitcoin-payment-instructions/src/amount.rs:96-102 | the trimmed fraction has no trailing zero and its value |
| Amounts.Amount.SatsRoundingUp | bitcoin-payment-instructions/src/amount.rs:44-46 | the least number of satoshis that covers the amount |
| Amounts.Amount.SaturatingAdd | bitcoin-payment-instructions/src/amount.rs:61-67 | exact up to 21 million bitcoin, and that much beyond |
| Amounts.Amount.SaturatingSub | bitcoin-payment-instructions/src/amount.rs:70-73 | exact, or zero where it would be negative |
| Amounts.FromSatsExact | bitcoin-payment-instructions/src/amount.rs:56-58 | the wrapping conversion is exact just when the product fits 64 bits, and else off by a multiple of 2^64 |
| ReceiveUri.ReceiveUriParses | libbtcwallet/src/lib.rs:545-576 | the wallet's URI for up to 21 million bitcoin is accepted with exactly the intended methods, all within a satoshi above the request |
| ReceiveUri.AmountlessReceiveUriParses | libbtcwallet/src/lib.rs:545-576 | without an amount it is accepted exactly when the invoice has none, or stands alone and is not too large |
| ReceiveUri.ReceiveUriScans | libbtcwallet/src/lib.rs:561-575 | before amounts are compared, the query yields exactly the offered methods |
| ReceiveUri.ReceiveTextShape | libbtcwallet/src/lib.rs:561-575 | upper-casing leaves a URI with the upper-cased address and invoice and the printed amount |
| ReceiveUri.OfferedAmounts | libbtcwallet/src/lib.rs:561-575 | the offered amounts are consistent |
| ReceiveUri.GetSingleUseReceiveUri | libbtcwallet/src/lib.rs:545-576 | hands out the URI with the custodial invoice if there is no amount or it is within the limit and not surely receivable over lightning, else with the node's, and with an address from the threshold on; it fails exactly if what it takes is missing; if the services deliver, what it hands out parses back |
| ReceiveUri.HandedOutUriParses | libbtcwallet/src/lib.rs:545-576 | the URI is accepted, offers on-chain payment exactly when the amount reaches the threshold (without one, when that is enabled), always lightning, and asks for the amount, at most a satoshi more |

## Left out

- http_resolver.rs and onion_message_resolver.rs: network access; a resolver is an arbitrary function from names to text.
- receive.rs: repeats the skeleton of BIP 321 parsing with easier claims.
- custodial_wallet.rs and lightning_wallet.rs: wrappers around services, whose answers are parameters; the choice between invoice kinds is modelled for a given amount only.
- The wait for a receipt: only what it means when it ends. That it ends depends on the services, and a notification between the look and `mark_unchanged` can be missed.
- The debug assertions of `list_transactions` about directions (libbtcwallet/src/lib.rs:460 and 482): they depend on what the lightning wallet lists, and the second can fail between a payment and its record.
- Text: a character stands for a byte, and slicing inside a multi-byte character, where the Rust code panics, is not modelled.
- Address, BOLT 11, BOLT 12, UUID and TLV codecs and the UTF-8 check: arbitrary functions, with the round-trip laws stated where a result needs them.
- Wrap-around: `Amount::from_sats` wraps for the amount of a URI, as in a release build; elsewhere the absence of overflow is a precondition of `from_sats` and `sats_rounding_up`.
- ProtocolRuns.RunInv: the transition system lets the services answer anything that the premises allow, so it does not model balances or the amount of a transfer.
- PollLoop.PollOnce: one pass with nobody in between; interleavings are in Protocol. The clock is a function from ids to times.
- RebalanceFlow.DoCustodialRebalance: likewise without interruption; the decision is taken once, with the balance and estimate as read then.
- Pay.PayOrder: likewise; the services answer each method by its position, and balances are the snapshot that the source takes.
- History.SortByTimeSorts: the standard library's stable sort appears as insertion; stability is not claimed, since the hash map's order is arbitrary anyway.
- Parser.PatchAmounts: the list of methods is a sequence that the loop reassigns, so aliasing through `iter_mut` is not captured.
- Logging, error texts, SQLite, tokio details and the demo program.
