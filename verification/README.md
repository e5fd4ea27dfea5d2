# A verified model of the Fleta testnet node

This project models the parts of the Fleta testnet node (a blockchain node written in Go) in which a mistake would
fork the chain, lose blocks or make coins, and proves what they promise.

| part | modules | main results |
|---|---|---|
| Observer protocol | ObserverTypes, ObserverRound, ObserverNode, Agreement, VoteChecks, VoteRecords, VoteChoice, Disagreement, TurnHeights | `AgreementAt`, `Disagree`, `FirstVoteIff`, `SignedAreExecuted`, `RecordsHold`, `AlwaysChoosesIff` |
| Block log on disk | Bytes, PileFormat, PileCrash, PileRuns, PileLimits, PileRead, PileReload, PileNode, PileDB | `CrashSafeRun`, `ReloadIff`, `UnsyncedIff`, `AllBackIffFew`, `ReopenIff` |
| Log and state | Recovery | `RecoversCrashFree`, `StoredStays` |
| Formulator ranks | RankOrder, RankUpdate, RankRotation, RankChanges, RankTable, Consensus | `TopAfterForward`, `RunKeeps`, `EverybodyTurns`, `OrderFree` |
| Queues and pool | SortedQueue, PagedQueue, TxPool, TxPoolContents, TxPoolDue, TxPoolOrder, TxPoolStuck, TxPoolNode | `RunIsMap`, `RunCounts`, `PopTakes`, `PopIff`, `RunInOrder`, `StuckIff` |
| Layered context | Overlay, ContextNode | `RunRefines`, `MergeReads`, `RevertRestores` |
| Making and executing blocks | BlockExec, BlockChecks, BlockNode | `MadeExecutes`, `AcceptedIff`, `SequencesFollow`, `WholeIff` |
| Coins on the layered context | LedgerLayers, LedgerHoldings, LedgerBlocks, LedgerBooks, LedgerRuns, LedgerInBlock | `RunSupplyIff`, `RunClean`, `CommitBooksIff`, `RestakedIsLost` |
| Stakes and rewards | Sums, StakeIndex, GenCount, Rewards, Ledger, LedgerMoves | `TransmuteIff`, `CloseHyper`, `ExecuteMoves`, `PayOut` |
| Amounts as text | AmountText | `RoundTripIff`, `ParseMeans` |

Each part has two layers. Pure definitions say what the code computes, branch by branch, and carry the theorems over
all inputs and all runs. Classes and methods (the modules ending in Node, and RankTable, Consensus, SortedQueue,
PagedQueue, PileDB, Recovery, StakeIndex) keep the mutable form of the source, its fields, loops and early returns, and
are proved to compute those definitions. Options holds the option type that all parts share.

What is left to the environment is a parameter: the contents of the rank table and the outcome of block execution in
the observer protocol, the order in which a Go map is walked, the clock, the compression of data items, the effect of
a transaction on its context. Signatures are ideal: a signature names its signer and what was signed, and an observer
signature can only be delivered after that observer has made it; otherwise the network may drop, repeat, reorder and
invent messages. A crash may keep or lose every byte of every unsynced write independently; the safety theorems even
allow it to turn these bytes into anything.

`dafny verify dfyconfig.toml` checks the project.

## What the code does not promise

Where a property one would expect turned out false, the project has a concrete counterexample and the exact condition.

- Agreement needs observers that remember: the failure reset (and a restart) lets an observer vote for a second header
  of a height. `Disagree` is a legal run that forks; `AgreementAt` excludes exactly such resets.
- Without sync mode a crash can leave a pile that loads and holds no log (`UnsyncedCrash`), exactly when the bytes of a
  slot before and after can be mixed into one that misleads (`UnsyncedIff`), as they can when it was blank; and a new
  pile is not on the disk before the first sync of its first append (`NewPileCrash`). A crash while a file is being
  loaded is not always harmless: the repair may write both check heights before one sync (`ReloadIff`,
  `OnlySecondKept`).
- Whether enough acknowledgements lead to a choice depends on the order in which they are walked (`OrderDecides`),
  unless one majority agrees on both the timeout count and the observer (`AlwaysChoosesIff`).
- Records of 64 or more items cannot be read back, because the size of the size table is computed in one byte
  (`AllBackIffFew`); a log whose last chunk is exactly full cannot be opened (`ReopenIff`); the hash one above the head
  may be read (`HashBeyond`).
- After a block that skipped formulators its maker need not be on top of the rank table (`TopAfterForward`,
  `SkippedStaysOnTop`).
- A removal by hash can give up a turn that belongs to another transaction (`TurnLostIff`), and a due transaction can
  be stuck for ever (`DueButStuck`): while one is due, a pop gives nothing exactly when the turns have run out
  (`StuckIff`). Removing an account transaction removes the ones before it and not, as its comment says, the
  transaction itself (`RemoveBelowTakes`).
- A value set after a delete in a lower layer is lost by the commit (`MergeReads`, `SetAfterDeleteIsLost`). So coins
  paid to an account that was emptied earlier in the block are gone (`PaidBackIsLost`), a stake that was taken back
  whole and staked again in the same block is gone although the formulator counts it (`RestakedIsLost`), and a
  formulator that all have left does not list who stakes there later in the block (`StakeIsNotListed`). What is owned
  is kept exactly when no key of a balance, the fees, a stake or a ticket is credited after it was deleted in the block
  and no transmutation fails midway (`RunSupplyIff`, `SourceSupplyIff`); the books are kept exactly when no key of a
  stake or its index is (`CommitBooksIff`).
- A transmutation that fails midway keeps the stakes it has taken: its checks look at each entry alone, so one
  formulator named twice can pass them (`TwiceTheSame`, `TransmuteIff`, `TransmuteLosesIff`).
- A block with a transaction out of sequence is accepted half executed (`HalfExecuted`); exactly the blocks that reach
  none are executed whole (`WholeIff`).
- Adding a stake of zero lists a staker without a stake (`AddExactIff`); rewards staked at once and the stakes of
  deleted accounts put the sum of a formulator out of step with its stakes (`AutoStakeIff`, `DropStakerIff`), and then
  it can no longer be closed (`CloseHyper`).
- Amounts of 2^63 coins and more do not survive their text (`RoundTripIff`), and a fraction of more than 18 digits
  crashes the parser (`ParseMeans`).
- The handler for block generation requests in the observer can never be reached, since it is written for a value and
  messages are pointers; it is not modelled. The branch of the sorted queue that replaces an entry is dead as well.

## Model

| member | source | states |
|---|---|---|
| `Agreement.AgreementAt` | pof/observer_node.go:495-1183 | Safety of the observer protocol: in every run, under any network that cannot forge observer signatures, if no observer drops a round at height h after signing there, any two observers that have connected a block at h have connected the same headers up to h |
| `Agreement.RunKeeps` | pof/observer_node.go:210-316 | Every reachable world keeps the invariant behind it: each observer has signed at most one header at h, votes and queued blocks carry signatures that were made, and every connected header is certified by a majority |
| `Agreement.StepKeeps` | pof/observer_node.go:495-1252 | One delivery, timer turn or restart of any observer keeps that invariant for all observers, unless it forgets a vote at h |
| `Agreement.HandleKeeps` | pof/observer_node.go:495-1252 | No message makes an observer sign a second header at its height, move its height back, or record a vote without its signature |
| `Agreement.BlockVoteKeeps` | pof/observer_node.go:967-1183 | The block vote handler, including early votes, replies and connecting at a majority, keeps the round and its evidence |
| `Agreement.ConnectQueuedKeeps` | pof/observer_node.go:215-239 | A block connected from the queue has passed the full check, so its header is certified too |
| `Agreement.TickActsWell` | pof/observer_node.go:258-316 | A turn of the vote timer repeats only what was signed before, and after too many failures starts a round without a vote |
| `Agreement.VotesCertify` | pof/observer_node.go:1050-1090 | A vote map of majority size is a certificate for the header of the block it belongs to |
| `Agreement.MajorityCertifies` | common/util_verify.go:37-57 | A block that passes the signature check carries a certificate for its header |
| `Agreement.CertifiedUnique` | common/util_verify.go:37-57 | Two certified headers of one height are equal when every observer has signed at most one: two majorities meet |
| `Agreement.QuorumsMeet` | pof/consensus.go:166-172 | Any two sets of a majority of the observer keys have a key in common |
| `Agreement.SamePast` | core/chain/chain.go:417-456 | Two chains with an equal header at a height have equal headers at all heights below |
| `VoteChecks.FirstVoteIff` | pof/observer_node.go:789-913 | For an observer that has not voted at its height: a delivery makes it sign a header if and only if it brings a block with that header, the round waits for it and has none, rank, chosen formulator and key match, no other block is waiting, the header is valid, the timestamp is within ten seconds, and the block executes to its context hash |
| `VoteChecks.SignedAreExecuted` | pof/observer_node.go:789-913 | In every run, also where observers drop rounds: whatever header an observer has signed, it was given a block with it before, and that block had a valid header and executed on the chain that it had then |
| `VoteChecks.ChainsExecuted` | pof/observer_node.go:215-239 | In every run every block of an observer had a valid header on the chain before it, could be saved there, and was executed there, but for its signatures |
| `VoteRecords.RecordsHold` | pof/observer_node.go:501-735 | In every run, under any network that cannot forge observer signatures: only round votes and acknowledgements that their senders have made are on record, while they are collected all are for this height, this chain and its rank table, and only blocks of a formulator in that table are waited for |
| `VoteRecords.RoundVoteIff` | pof/observer_node.go:501-596 | Exactly the round votes that are signed by their sender, for this height and chain, name the ranked formulator, come in the right stage and are newer than the one on record are recorded; with enough of them, and only then, the stage changes |
| `VoteRecords.AckIff` | pof/observer_node.go:597-735 | The same for acknowledgements; any other changes nothing, unless it comes early and waits |
| `VoteRecords.BlockVoteIff` | pof/observer_node.go:967-1183 | A block vote that counts is recorded, and with it a majority connects the block that the votes are for, with their signatures, if and only if it can be saved |
| `VoteRecords.BlockVoteRefused` | pof/observer_node.go:967-1065 | A block vote that is not signed twice by its sender, not for the block this observer has voted for, not by the chosen formulator or not the first of its sender changes neither chain nor votes |
| `VoteRecords.LeastIsAcknowledged` | pof/observer_node.go:570-596 | The round vote that completes the quorum makes the observer acknowledge the vote on record that is least by timeout count and then by sender, with its height, timeout count and formulator |
| `VoteRecords.RoundAfterConnect` | pof/observer_node.go:1122-1182 | After a block has been connected by votes the round goes on for the same formulator if and only if it is on top of the new rank table and its turn covers the next height; otherwise a new round starts |
| `VoteRecords.TimerVotes` | pof/observer_node.go:258-316 | The vote timer lets an observer that collects round votes name the first connected formulator of the rank table, with its place as the timeout count |
| `VoteRecords.TimerRepeats` | pof/observer_node.go:258-316 | Until failures are too many, the vote timer repeats the vote of an observer that has voted |
| `TurnHeights.HeightsLeft` | pof/observer_node.go:694-706 | In every round that has chosen a formulator exactly the heights are left that its turn reaches: without timeouts what is left of the maximum after the blocks made, with timeouts a whole turn, never none and never more |
| `TurnHeights.HeightsAreTurn` | pof/observer_node.go:694-706 | Without timeouts these heights are the blocks that the one on top of the rank table makes before its turn ends, in every run without timeouts or account changes |
| `TurnHeights.RunFresh` | pof/vote_round.go:32-50 | In every run a round that has not chosen yet has exactly the heights of a whole turn |
| `Disagreement.Disagree` | pof/observer_node.go:276-294 | Why agreement needs its condition: a legal run of three observers in which one votes, drops its round by the failure reset and votes again, and two observers connect different headers at height 1 |
| `Disagreement.DriveReset` | pof/observer_node.go:276-294 | Twenty-one turns of the vote timer bring an observer that has voted back to a fresh round of the same height |
| `VoteChoice.ChoiceHasQuorum` | pof/observer_node.go:673-693 | For every order in which the acknowledgements are walked, the chosen one was received, a majority of senders name its timeout count and a majority its chosen observer |
| `VoteChoice.ChoicesAgree` | pof/observer_node.go:673-693 | With one fixed timeout count and one fixed choice per observer, two observers on one chain that choose, from any subsets and in any orders, choose the same timeout count, observer and formulator |
| `VoteChoice.OrderDecides` | pof/observer_node.go:677-689 | The order of the walk decides whether anything is chosen at all: four acknowledgements that give a choice in one order and none in another |
| `VoteChoice.AlwaysChoosesIff` | pof/observer_node.go:673-693 | Every walk chooses an acknowledgement if and only if a majority of senders name both the same timeout count and the same observer |
| `VoteChoice.SomeChoosesIff` | pof/observer_node.go:673-693 | Some walk chooses one if and only if a majority name the same timeout count and a majority, perhaps another, the same observer |
| `VoteChoice.FirstQuorum` | pof/observer_node.go:1007-1090 | The vote that completes the first majority yields a block whose header is valid and whose signatures pass the consensus check on the same chain, if and only if all votes carry one generator signature |
| `VoteChoice.VotesAreMajority` | pof/observer_node.go:1076-1089 | The collected observer signatures are exactly a majority over one payload if and only if the votes carry the generator signature of the block |
| `VoteChoice.LateQuorumFails` | pof/consensus.go:133-174 | A block assembled with more votes than a majority is refused by every node |
| `ObserverRound.SignersSize` | common/util_verify.go:40-55 | The number of different signers is at most the number of signatures, and equal to it exactly when they are all different |
| `ObserverNode.MakeVoteRound` | pof/vote_round.go:32-50 | The loop builds a round with an empty block round for every height the formulator may make |
| `ObserverNode.LeastVote` | pof/observer_node.go:570-581 | Selecting by sorting gives a vote that no other vote precedes by timeout count and then by key |
| `ObserverNode.CountAcks` | pof/observer_node.go:674-689 | The counting loop over a map in any order returns the first acknowledgement with both quorums, as the recursive choice does |
| `ObserverNode.Trim` | pof/observer_node.go:698-706 | The in-place deletion loop leaves exactly the heights the formulator can reach, without the waiting blocks of others |
| `ObserverNode.CollectSigs` | pof/observer_node.go:1077-1080 | The loop over the vote map collects one observer signature per vote, in the order of the walk |
| `ObserverNode.ValidateSignaturesMajority` | common/util_verify.go:37-57 | The loop accepts exactly a majority of signatures over the payload by different known keys |
| `ObserverNode.ValidateSignature` | pof/consensus.go:133-174 | Accepts exactly the blocks whose first signature is that of the ranked generator and whose others are a majority of the observers over header and generator signature |
| `ObserverNode.Node.SyncVoteRound` | pof/observer_node.go:337-365 | Brings round and outbox to the state of the protocol function for a chain that has moved on |
| `ObserverNode.Node.ResetVoteRound` | pof/observer_node.go:367-374 | A fresh round for the height after the chain, all else unchanged |
| `ObserverNode.Node.FindTop` | pof/rank_table.go:103-116 | The loop finds the first ranked formulator among the connected ones, and its place, which becomes the timeout count |
| `ObserverNode.Node.HandleMessage` | pof/observer_node.go:495-1252 | The node as a whole, for any message in any state: it signs no second header at a height, signs a new one only for a block that it is given and that runs on its chain, keeps votes only with their signatures, connects only what a majority has signed and what runs, and signs only for itself; its state and messages are those of a delivery in the runs of the agreement theorem |
| `ObserverNode.Node.OnVoteTimer` | pof/observer_node.go:258-316 | A turn of the vote timer is safe in the same sense, unless it gives up a round in which a vote was signed |
| `ObserverNode.Node.OnBlockTimer` | pof/observer_node.go:215-239 | What the block timer connects is certified by a majority |
| `ObserverNode.Node.OnRoundVote` | pof/observer_node.go:501-596 | The guards, the reply and the selection by the least vote lead to the state, messages and error of a delivery in the agreement theorem, for every message and state |
| `ObserverNode.Node.OnAck` | pof/observer_node.go:597-735 | The guards, the reply and the choice among the acknowledgements lead to the state, messages and error of a delivery, for every order of the map |
| `ObserverNode.Node.ChooseFromAcks` | pof/observer_node.go:673-735 | With enough acknowledgements the choice is made, the round waits for its formulator and the setup message goes out; otherwise nothing changes |
| `ObserverNode.Node.OnBlockVote` | pof/observer_node.go:967-1183 | Early votes, replies, the checks and the connecting at a majority lead to the state, messages and error of a delivery, for every order of the vote map |
| `ObserverNode.Node.ConnectVotedBlock` | pof/observer_node.go:1082-1182 | Connecting the voted block extends the chain by it, moves the round on and sends what waited, or leaves the chain and reports the error |
| `ObserverNode.Node.ConnectQueuedBlock` | pof/observer_node.go:215-239 | The queued block of the next height extends the chain exactly when it passes the full check |
| `PileCrash.CrashSafe` | core/pile/pile.go:187-292 | Crash safety of one synced append: wherever it is cut off, and whatever the unsynced writes left behind, the file loads as the old log or the new one; the old one before the first check height is written, the new one once that is synced |
| `PileRuns.CrashSafeRun` | core/pile/pile.go:187-292 | Over every run of synced appends cut off at any operation, the file loads as a well-formed pile with all appends that had returned and possibly the one that had not |
| `PileRuns.AppendExtends` | core/pile/pile.go:187-292 | A completed append, synced or not, leaves a well-formed pile with exactly one more record |
| `PileRuns.AppendSyncs` | core/pile/pile.go:259-289 | A synced append leaves nothing unsynced behind |
| `PileCrash.RepairCases` | core/pile/pile.go:100-142 | Which of the three head heights wins and which are rewritten, in each accepted case |
| `PileCrash.RepairIff` | core/pile/pile.go:100-142 | For all head heights: exactly which are accepted and with what height, with the wrap of the height above the second check, and that all others are refused |
| `PileReload.ReloadIff` | core/pile/pile.go:100-142 | When every byte of an unsynced write is kept or lost, a crash while a file is being loaded is harmless unless the repair writes both check heights and the first of them is not the head already: they differ, the head is one above the second, and it is not the first |
| `PileReload.OnlySecondKept` | core/pile/pile.go:112-126 | When of these two writes only the second reaches the disk, the file is refused, unless the first check was right already |
| `PileCrash.Loads` | core/pile/pile.go:70-172 | Every file with a log in place and repairable head heights loads, and loading makes the three head heights equal |
| `PileCrash.TornInBody` | core/pile/pile.go:210-263 | Before the first sync the old log survives every crash |
| `PileLimits.UnsyncedCrash` | core/pile/pile.go:210-291 | Without sync mode, for every pile and every record: with any mix of the old and the new bytes of its slot that misleads, a crash can leave a file that loads with the new height and holds no log at all |
| `PileLimits.UnsyncedIff` | core/pile/pile.go:210-291 | And only then: such a crash exists if and only if some mix of the bytes in the slot of the record before and after says that the record ends before it begins, or reads as negative |
| `PileLimits.BlankMisleads` | core/pile/pile.go:25-67 | A slot that has never been written is such a case, whatever is to be written there |
| `PileLimits.NewPileCrash` | core/pile/pile.go:25-67 | A new pile and its first append: some crash leaves a file that is refused, if and only if it comes before the first sync of that append |
| `PileLimits.NewWellFormed` | core/pile/pile.go:25-67 | A new file is the well-formed pile of the empty log |
| `PileRead.HashBack` | core/pile/pile.go:295-325 | The hash of every stored height is read back |
| `PileRead.HashBeyond` | core/pile/pile.go:295-325 | Reading the hash one above the head fails if and only if the file ends there; nothing else stops it |
| `PileRead.DataBack` | core/pile/pile.go:328-387 | Every item of a record of at most 63 items is read back decompressed, and an index beyond them is refused |
| `PileRead.AllBackIffFew` | core/pile/pile.go:354-373 | All items of a stored record can be read back if and only if there are at most 63: the size of the size table is computed in one byte |
| `PileRead.CodecExists` | core/pile/pile.go:215-232 | There is a compression with the law that the reading theorems ask for |
| `PileRead.TableRead` | core/pile/pile.go:354-373 | What the readers see of a size table: it is cut off at four times the item count modulo 256 |
| `PileRead.DatasBack` | core/pile/pile.go:390-452 | A range of items is read back in one piece, and a range that reaches beyond them is refused |
| `PileNode.Pile.AppendData` | core/pile/pile.go:187-292 | Either nothing is written, or exactly the operations of an append at the end of the log, with the code the caller gets |
| `PileNode.WriteRecord` | core/pile/pile.go:210-242 | The writing loops put hash, item count, compressed sizes and compressed items one after another and add up their size |
| `PileNode.Pile.ReadHash` | core/pile/pile.go:295-325 | The seek and read calls give the hash that the byte-level reader gives |
| `PileNode.Pile.ReadData` | core/pile/pile.go:328-387 | The seek, read and summing loop gives the item that the byte-level reader gives, or its panic or error |
| `PileNode.Pile.ReadDatas` | core/pile/pile.go:390-452 | The reading loop gives the items that the byte-level reader gives, or its panic or error |
| `PileNode.DoRepair` | core/pile/pile.go:100-142 | The repair writes done one by one are those of the repair function, and it syncs them |
| `PileNode.Load` | core/pile/pile.go:70-172 | Loading through seeks and reads gives the result of the byte-level load |
| `PileDB.DB.AppendData` | core/pile/db.go:136-177 | Over many piles: a record is stored at exactly the next height, in the last chunk or a new one, and the log of all chunks grows by it; more than 255 items or another height change nothing |
| `PileDB.DB.Roll` | core/pile/db.go:148-158 | When the last chunk is full a new one is made, and the log stays |
| `PileDB.DB.ReadHash` | core/pile/db.go:180-203 | The hash of any stored height, wherever its chunk is |
| `PileDB.DB.ReadData` | core/pile/db.go:206-225 | An item of any stored height; height 0 and heights beyond the log are refused |
| `PileDB.DB.ReadDatas` | core/pile/db.go:228-247 | A range of items of any stored height; height 0 and heights beyond the log are refused |
| `PileDB.PartAt` | core/pile/db.go:180-203 | A stored height is in the chunk that its readers compute, at the place they compute |
| `PileDB.PartSnoc` | core/pile/db.go:136-177 | Appending changes only the last chunk |
| `PileDB.Open` | core/pile/db.go:26-94 | Opening succeeds exactly when every file loads and there is one for each chunk up to that of the highest head, and then lists them in order |
| `PileDB.ReopenIff` | core/pile/db.go:50-60 | The files of a log, after any number of appends, all load; they can be opened as one log again if and only if it is empty or its last chunk is not full |
| `Bytes.RoundTrip32` | common/util/util_convert.go:8-41 | Four little-endian bytes give back every number below 2^32 |
| `Bytes.RoundTrip64` | common/util/util_convert.go:8-41 | Eight little-endian bytes give back every number below 2^64 |
| `Recovery.RecoversCrashFree` | cmd/observer/main.go:151-164 | Whatever crashes a run has had, a node that is up is exactly the node of a run without crashes that stored the blocks of its log |
| `Recovery.StoredStays` | core/chain/store.go:820-935 | A block whose storing returned stays at its height through every later crash and restart |
| `Recovery.RunGood` | core/chain/store.go:820-935 | In every run the log is never behind the state, its heights are consecutive, and the state is that of a prefix of the log |
| `Recovery.ReplayRestores` | core/chain/store.go:937-951 | Replaying the log from the height of the state never fails and ends with the state of the whole log |
| `Recovery.StartsUp` | cmd/observer/main.go:151-164 | A node that is down comes up with the state of its whole log |
| `Recovery.ConnectSound` | core/chain/chain.go:239-312 | Connecting a new block, or replaying the next one of the log, keeps the log consecutive and the state that of a prefix of it, and advances the height by one |
| `Recovery.NodeStore.ConnectBlock` | core/chain/chain.go:239-312 | The stored node, through its two separate writes to log and state, stays in line; a replayed block is not written to the log a second time |
| `Recovery.NodeStore.IterBlockAfterContext` | core/chain/store.go:937-951 | The loop connects the blocks of the log above the height of the state, as the replay does |
| `RankOrder.TopAfterForward` | pof/rank_table.go:197-213 | After skipping k formulators the one at place k is on top, if and only if it is ahead of the first one skipped even when that has gone two phases back |
| `RankOrder.NearTopComesUp` | pof/rank_table.go:197-213 | Within one phase of the top the condition always holds |
| `RankOrder.SkippedStaysOnTop` | pof/rank_table.go:197-213 | Two phases behind it may fail: a formulator that missed its turn is on top again |
| `RankOrder.ForwardKeeps` | pof/rank_table.go:197-213 | Skipping keeps the table strictly sorted with the same formulators |
| `RankOrder.MoveTopKeeps` | pof/rank_table.go:215-227 | Moving the top back keeps the table strictly sorted with the same formulators |
| `RankOrder.InsertKeeps` | pof/rank_table.go:229-237 | Inserting before the first greater rank keeps the table strictly sorted and adds exactly the new rank |
| `RankUpdate.RunKeeps` | pof/consensus.go:177-208 | Over every run of blocks, without a phase limit or with one that may be another at each height: no block is refused for a phase, the table stays sorted with unique addresses, the phases stay two apart at most (with a limit, as far as the last one allows), and the remaining blocks of the top number between one and the maximum |
| `RankUpdate.GenesisRunKeeps` | pof/consensus.go:66-208 | The same for every run from a genesis block on |
| `RankUpdate.SaveKeeps` | pof/consensus.go:177-208 | Under every policy a saved block keeps the table in order, keeps the spread the policy asks for, and never fails for a phase; what it does to the table is in `RankRotation.SaveTurns` and `RankChanges.UpdateIs` |
| `RankRotation.SaveTurns` | pof/consensus.go:177-208 | A block without account changes is refused if and only if too many were skipped; until the one on top has made its last block the table is the one without those skipped and one more block is counted, and then exactly the one on top goes one phase on, with the hash of the block, and counting starts anew |
| `RankRotation.TurnEnds` | pof/consensus.go:177-208 | From any state of a run without timeouts the one on top makes exactly the blocks left of its turn; then it is on top again if and only if it is before all others one phase on |
| `RankRotation.NoLongRun` | pof/consensus.go:177-208 | Over every run without timeouts, nobody makes more blocks in a row than the maximum while another is at or before its new rank |
| `RankRotation.EverybodyTurns` | pof/consensus.go:177-208 | Nobody waits for ever: with phases two apart at most, every formulator makes a block within (4n + 1) times the maximum number of blocks of a run without timeouts, for n formulators |
| `RankRotation.HistoryExists` | pof/consensus.go:177-208 | No block of such a run is refused |
| `RankChanges.LimitedIs` | pof/consensus_method.go:22-43 | Under a phase limit exactly the ranks too far ahead come back to it, and nobody joins or leaves |
| `RankChanges.ChangeAllIs` | pof/consensus_method.go:44-81 | The changed accounts of a block fail if and only if a created, active formulator is in the table already; otherwise each joins with the phase of newcomers, stays with its rank or leaves as its own change says, and all others stay |
| `RankChanges.UpdateIs` | pof/consensus_method.go:20-92 | Who is in the table after a block, and with which rank: the limit, the changed accounts and the deleted ones together |
| `RankChanges.OrderFree` | pof/consensus_method.go:20-92 | In whatever order the accounts of a block are walked, every node gets the same table or the same error |
| `RankUpdate.UpdateKeeps` | pof/consensus_method.go:20-92 | Updating the list fails only for an address that is there already or an empty table, and leaves no phase below the former smallest or above the one newcomers get |
| `RankUpdate.ChangeOneKeeps` | pof/consensus_method.go:44-81 | One account change fails exactly when a newly created, active formulator is in the table already |
| `RankUpdate.ClampKeeps` | pof/consensus_method.go:31-41 | Bringing back ranks that are too far ahead never fails, keeps the formulators and leaves no phase above the limit |
| `RankUpdate.GenesisInOrder` | pof/consensus.go:66-80 | The table that a genesis block makes is in order |
| `RankTable.Search` | pof/rank_table.go:229-237 | The binary search finds the first candidate greater than the given one |
| `RankTable.RankTable.AddRank` | pof/rank_table.go:170-182 | Over mutable candidates: refused below the smallest phase or for a known address, otherwise the table and the map hold one more candidate in order |
| `RankTable.RankTable.RemoveRank` | pof/rank_table.go:184-195 | The candidate leaves list and map, and all others stay the same objects |
| `RankTable.RankTable.ForwardCandidates` | pof/rank_table.go:197-213 | The loop that changes and moves candidates in place gives the table of the pure definition, with the same objects |
| `RankTable.RankTable.ForwardOne` | pof/rank_table.go:215-227 | The top takes its new phase and hash and goes where it belongs |
| `Consensus.Consensus.UpdateFormulatorList` | pof/consensus_method.go:20-92 | The account walk over the mutable table gives the table or the error of the pure definition |
| `Consensus.Consensus.OnSaveData` | pof/consensus.go:177-208 | Saving a block moves the mutable table and the block count as the pure definition does, whose turns and changes are characterized above, or reports its error |
| `SortedQueue.Queue.Insert` | common/queue/sorted.go:44-74 | Across all three array layouts the window stays sorted and holds exactly one more entry, behind those of its priority |
| `SortedQueue.Queue.FindOrInsert` | common/queue/sorted.go:25-34 | Finds the entry of a priority or inserts one; in both cases different priorities stay different |
| `SortedQueue.Queue.Pop` | common/queue/sorted.go:144-164 | Takes the first entry and keeps priorities different |
| `SortedQueue.Queue.Compact` | common/queue/sorted.go:152-162 | Both compaction paths leave the entries as they are |
| `SortedQueue.Queue.PopUntil` | common/queue/sorted.go:116-134 | The loop drops the entries below a priority and takes one entry of it, if there is one; with different priorities exactly the entries above it are left |
| `SortedQueue.DroppedUntilIs` | common/queue/sorted.go:116-134 | What is left is exactly the entries above the priority, and those of it but the first |
| `SortedQueue.LookupFinds` | common/queue/sorted.go:100-113 | Looking up finds an entry exactly when there is one |
| `SortedQueue.InsertedKeeps` | common/queue/sorted.go:44-74 | Inserting keeps the order and adds exactly one entry |
| `SortedQueue.InsertedStrict` | common/queue/sorted.go:25-34 | Inserting a priority that is not there keeps priorities different |
| `SortedQueue.DroppedStrict` | common/queue/sorted.go:116-134 | With different priorities, popping until one leaves the suffix of all greater ones |
| `SortedQueue.ApplySteps` | common/queue/sorted.go:25-164 | One operation on a queue with different priorities is that operation on the finite map it shows: find or insert, take the least, drop up to a priority |
| `SortedQueue.RunIsMap` | common/queue/sorted.go:25-164 | Every run of finding or inserting, popping and popping until from the empty queue is a run of a finite map |
| `PagedQueue.Queue.Push` | common/queue/queue.go:24-41 | Over ring-buffer pages: the contents grow by the item at the end |
| `PagedQueue.Queue.Pop` | common/queue/queue.go:57-74 | The first item is taken and the rest stays in order, across pages |
| `PagedQueue.Queue.Peek` | common/queue/queue.go:44-54 | The first item, without change |
| `TxPool.RunCounts` | core/txpool/transaction_pool.go:66-258 | Over every run of pushes, removals and pops: no operation crashes, no kind of transaction has more turns than are queued, each sender has exactly as many numbers as transactions, and buckets are in sequence order |
| `TxPool.PopCounts` | core/txpool/transaction_pool.go:163-258 | Taking a transaction never meets a missing bucket and keeps the counts |
| `TxPool.PushCounts` | core/txpool/transaction_pool.go:66-101 | Pushing keeps the counts |
| `TxPool.RemoveCounts` | core/txpool/transaction_pool.go:105-152 | Removing keeps the counts |
| `TxPoolContents.RunHashed` | core/txpool/transaction_pool.go:66-258 | Over every run the table of hashes has exactly the queued transactions |
| `TxPoolContents.PopTakes` | core/txpool/transaction_pool.go:163-258 | Taking gives a queued transaction that is due, or nothing, and drops only transactions whose sequence is used |
| `TxPoolContents.PushAdds` | core/txpool/transaction_pool.go:66-101 | An accepted transaction is the only one that joins |
| `TxPoolContents.PushIff` | core/txpool/transaction_pool.go:66-101 | A transaction is accepted if and only if it is not queued and no other one of its sender with its sequence is |
| `TxPoolContents.RemoveBelowTakes` | core/txpool/transaction_pool.go:121-150 | Of the sender, exactly the transactions below the given sequence leave; that sequence itself stays |
| `TxPoolContents.RemoveUtxoTakes` | core/txpool/transaction_pool.go:110-119 | Exactly the transaction of that hash leaves, if it is queued |
| `TxPoolContents.TurnLostIff` | common/queue/linked.go:68-101 | Removing by hash gives up a turn without a transaction if and only if the key is left over from an earlier removal and the queue is not empty |
| `TxPoolStuck.DueButStuck` | core/txpool/transaction_pool.go:163-258 | A run after which a queued transaction is due and no pop will ever give it |
| `TxPoolDue.PopIff` | core/txpool/transaction_pool.go:163-258 | Taking gives a transaction if and only if the next turn is one without sequences, or one of account transactions while some queued one is due |
| `TxPoolOrder.RunInOrder` | core/txpool/transaction_pool.go:66-258 | Over every run of pushes and of pops that find something due and nothing stale, account transactions and others come out in the order of their kinds as they were pushed, and the others themselves first in, first out |
| `TxPoolOrder.PopInOrder` | core/txpool/transaction_pool.go:163-258 | Then a pop takes exactly the first turn and gives the oldest transaction without a sender, or the next one of the first sender in line that is due |
| `TxPoolDue.TurnIff` | core/txpool/transaction_pool.go:164-181 | There is a next turn if and only if some kind has more turns than are to be skipped |
| `TxPoolDue.PopAccountIff` | core/txpool/transaction_pool.go:186-256 | Going round the senders, whose numbers are repeated and may be left over, finds a transaction if and only if one is due |
| `TxPoolDue.StuckIff` | core/txpool/transaction_pool.go:163-258 | After every run in which some transaction is due, a pop gives nothing if and only if the turns have run out |
| `TxPoolNode.TransactionPool.PushItem` | core/txpool/transaction_pool.go:66-101 | An accepted transaction is the only one that joins the mutable pool, a refused one changes nothing, and hashes and counts stay right |
| `TxPoolNode.TransactionPool.RemoveItem` | core/txpool/transaction_pool.go:105-152 | The removal loops give the pool of the pure definition |
| `TxPoolNode.TransactionPool.PopItem` | core/txpool/transaction_pool.go:163-258 | The nested loops give pool and transaction of the pure definition, without a crash when the counts are right |
| `Overlay.ApplyRefines` | core/types/context.go:98-276 | Every operation on the stack of layers, where it loses nothing, does to the reads of all layers what it does to a stack of plain states |
| `Overlay.RunRefines` | core/types/context.go:98-276 | Over every run of operations that lose nothing, the stack of layers reads as the stack of plain states |
| `Overlay.FreshRefines` | core/types/context.go:21-31 | A new context reads as the state under it |
| `Overlay.RevertRestores` | core/types/context.go:196-212 | Whatever was done since a snapshot, reverting to it gives back the very same stack |
| `Overlay.MergeReads` | core/types/context.go:214-276 | After one layer is committed a data key, account or sequence reads as before, if and only if it was not set above a tombstone |
| `Overlay.MergeGives` | core/types/context.go:214-276 | What a key or account reads as after one layer is committed: nothing if the lower layer has deleted it, and as before otherwise |
| `Overlay.CopyCommits` | core/types/context_data.go:224-260 | A copy that a read has left in the upper layer makes no difference to what its commit leaves |
| `Overlay.CommitRefines` | core/types/context.go:214-276 | Committing through several layers drops the layers of the plain states and keeps every read, where no key was set above a tombstone |
| `Overlay.SetAfterDeleteIsLost` | core/types/context.go:214-276 | A value set after an earlier layer has deleted the key is gone once it is committed |
| `Overlay.PutAccountReads` | core/types/context_data.go:183-211 | An account that is put into a layer is found there if and only if that layer has not deleted it; all others read as before |
| `Overlay.SetDataReads` | core/types/context_data.go:263-272 | A key reads as it was set, and every other key as before |
| `Overlay.KillReads` | core/types/context_data.go:213-221 | A deleted account is gone, and every other reads as before |
| `Overlay.AddSeqReads` | core/types/context_data.go:85-90 | The sequence of one account grows by one, all others stay |
| `Overlay.CacheDataPure` | core/types/context_data.go:224-260 | Keeping a read value in the top layer changes no read |
| `Overlay.CacheAccountPure` | core/types/context_data.go:93-124 | Keeping a read account in the top layer changes no read |
| `Overlay.CacheSeqPure` | core/types/context_data.go:63-82 | Keeping a read sequence in the top layer changes no read |
| `ContextNode.Context.AccountData` | core/types/context_data.go:224-260 | The walk down the layers gives the value that the stack reads as, and the copy it keeps changes no read |
| `ContextNode.Context.Seq` | core/types/context_data.go:63-82 | The walk down the layers gives the sequence that the stack reads as, and the copy it keeps changes no read |
| `ContextNode.Context.SetAccountData` | core/types/context_data.go:263-272 | The key reads as set or as deleted, and every other key, account and sequence as before |
| `ContextNode.Context.CommitTo` | core/types/context.go:214-276 | The loop that copies layer into layer gives the committed stack |
| `BlockExec.MadeExecutes` | core/chain/block_creator.go:88-177 | Creator and executor agree: for every sequence of offered transactions, refused and failing ones included, executing the block that was made succeeds, with the recorded results, in the very state its maker computed |
| `BlockChecks.AcceptedIff` | core/chain/chain.go:314-415 | For a block with one result for each transaction: it is accepted and in sequence, with a state, if and only if an honest maker that is offered its transactions makes this very block, with this state |
| `BlockChecks.ExecutedIsMade` | core/chain/chain.go:344-394 | Whatever is accepted and in sequence could have been made: offering its own transactions to a maker gives a block with the same transactions, the recorded result for each transaction with a sender, and the same state |
| `BlockChecks.ExecutesIff` | core/chain/chain.go:344-394 | A transaction of a block executes if and only if it is known and valid, is the next of its sender and gives the recorded result, or has no sender and succeeds, and leaves the generator its account |
| `BlockChecks.AddsIff` | core/chain/block_creator.go:88-141 | A maker adds exactly the transactions that are known, valid, next of their sender or without one and successful, and that leave the generator its account; it records for one with a sender whether it succeeded |
| `BlockChecks.SequenceGrows` | core/chain/chain.go:361-366 | In every executed block the sequence of a sender grows by the number of its transactions |
| `BlockChecks.SequencesFollow` | core/chain/chain.go:361-366 | Each executed transaction of a sender carries the sequence after those of the state and of its transactions before, so none is executed twice |
| `BlockChecks.GeneratorStays` | core/chain/chain.go:382-393 | No transaction of an executed block takes the account of its generator away |
| `BlockExec.AddedExecutes` | core/chain/block_creator.go:88-141 | A transaction that was added executes alike, with the result the block records |
| `BlockExec.NotAddedKeeps` | core/chain/block_creator.go:88-141 | A transaction that is not added leaves the creator as it was |
| `BlockExec.WholeIff` | core/chain/chain.go:314-415 | An accepted block has had all its transactions executed, and then the hooks, if and only if execution reaches no account transaction out of sequence; a block that reaches one is accepted with the state before it |
| `BlockExec.StopsThere` | core/chain/chain.go:344-394 | A transaction ends execution without an error if and only if it is known, valid, of an account and not the next of it, and leaves the context as it was |
| `BlockExec.HalfExecuted` | core/chain/chain.go:360-364 | Such a block, on any state: it is accepted although its second transaction is of no known kind and the hook after it would fail |
| `BlockNode.BlockCreator.UnsafeAddTx` | core/chain/block_creator.go:88-141 | The creator with its snapshots and early returns: it is as before unless the transaction is added, an added one executes to the very state it is left in, and one is dropped without an error exactly when it is out of sequence |
| `BlockNode.ExecuteTransactions` | core/chain/chain.go:344-394 | The executing loop gives stack and result of the pure definition, and goes through if and only if each transaction fits the state that the ones before have led to |
| `BlockNode.ExecuteOne` | core/chain/chain.go:344-394 | The checks of one transaction as early returns: it goes on exactly when the transaction fits, and ends the block without an error exactly when it is out of sequence |
| `StakeIndex.AddExactIff` | process/formulator/formulator_method.go:63-77 | Adding keeps the index listing exactly those with a stake, if and only if it does not add zero for a newcomer |
| `StakeIndex.SubExact` | process/formulator/formulator_method.go:79-114 | Taking away with swap-delete always keeps the index exact |
| `StakeIndex.AddListed` | process/formulator/formulator_method.go:63-77 | Numbers and stakers stay inverse to each other, and one amount changes |
| `StakeIndex.SubListed` | process/formulator/formulator_method.go:79-114 | Numbers and stakers stay inverse to each other through the swap, and one amount changes, or more than the stake is refused |
| `StakeIndex.SubUndoesAdd` | process/formulator/formulator_method.go:63-114 | Adding and taking away the same gives back the same stakes and stakers |
| `StakeIndex.ChangesExact` | process/formulator/formulator_method.go:63-114 | On a plain store: after any sequence of positive additions and of removals the index lists exactly those with a stake, and each stake is what is left of its own changes |
| `StakeIndex.Staking.AddStakingAmount` | process/formulator/formulator_method.go:63-77 | The stored index becomes that of the pure definition |
| `StakeIndex.Staking.SubStakingAmount` | process/formulator/formulator_method.go:79-114 | The stored index becomes that of the pure definition, or an error leaves it |
| `StakeIndex.Staking.GetStakingAmountMap` | process/formulator/formulator_method.go:117-130 | Walking the numbers gives every listed staker with its amount; with an exact index, exactly the stakes |
| `GenCount.AllInStep` | process/formulator/formulator.go:169-178 | Over every run, with a pay interval that may change at each block, the counted blocks are those since the last payment |
| `GenCount.CountsAre` | process/formulator/formulator.go:169-178 | Over every run each formulator has as its count the number of the blocks that it has made since the last payment |
| `GenCount.PaysEach` | process/formulator/formulator.go:169-178 | The block after any run pays if and only if the interval has passed, and then each formulator for exactly its own blocks since the last payment |
| `GenCount.BlockKeeps` | process/formulator/formulator.go:169-178 | When counts are paid out they sum to the blocks since the last payment |
| `GenCount.FlushGenCountMap` | process/formulator/formulator_method.go:33-49 | The flush gives every count and leaves nothing of the index behind |
| `Rewards.SplitBounds` | process/formulator/formulator.go:366-368 | The shares never exceed the reward and fall short of it by less than one unit per share and the power sum over 10^18 |
| `Rewards.ShareGrows` | process/formulator/formulator.go:366-368 | More power gets no less |
| `Rewards.PayRewards` | process/formulator/formulator.go:358-393 | Every formulator and every reserve gets the part of block rewards and fees that its own power has, but for less than one unit and what 18 decimals cannot tell apart; together they never exceed the whole, fall short by less than a stated bound, and the fees are used up; without power nothing is paid and the fees stay |
| `Rewards.PayOut` | process/formulator/formulator.go:430-465 | Every staker gets the part of the reserve that its own power has, less the commission rounded down, so 1000 - c thousandths of its share rounded up; the formulator gets what the stakers do not, which is c thousandths of all shares but for less than one unit each, and together they never exceed the reserve |
| `Rewards.NetBounds` | process/formulator/formulator.go:436-440 | For a share g and a net n: (1000 - c) g <= 1000 n < (1000 - c) g + 1000 is the rule that the payment meets |
| `Rewards.ShareFits` | process/formulator/formulator.go:366-368 | A share through the ratio with 18 decimals is the part of the total that the power has, not more and less by under one unit and what the ratio cannot tell apart |
| `Ledger.RunConserves` | process/vault/vault_method.go:158-174 | On plain coins, where every key reads as it was set last: over every run of transfers, stakings, unstakings and their reversals, each with its own fee and height, failed ones included, and of payments of due tickets in any order, balances, fees, stakes and pending unstakes add up to the same, and every sum a formulator keeps is that of its stakes |
| `Ledger.ExecuteConserves` | process/vault/vault_method.go:158-174 | The same for one transaction on plain coins, whether it succeeds or fails |
| `Ledger.WithFeeConserves` | process/vault/vault_method.go:158-174 | The fee around an operation conserves too; when only the operation fails, exactly the fee has moved |
| `Ledger.TransferSupply` | process/vault/tx_transfer.go:77-89 | A transfer makes and loses nothing, also to oneself |
| `Ledger.StakeSupply` | process/formulator/tx_staking.go:90-112 | Staking moves coins from the balance into the stake |
| `Ledger.StakeKept` | process/formulator/tx_staking.go:90-112 | Staking keeps every sum of a formulator right |
| `Ledger.UnstakeSupply` | process/formulator/tx_unstaking.go:89-113 | Unstaking moves coins from the stake into a ticket |
| `Ledger.TakeStakeSucceeds` | process/formulator/tx_unstaking.go:73-79 | A stake can be taken if and only if it is large enough: the sum of the formulator is never the reason |
| `Ledger.TakeBackSupply` | process/formulator/tx_revert_unstaking.go:89-107 | Reverting moves coins from the ticket back into the stake |
| `Ledger.TakeBackKept` | process/formulator/tx_revert_unstaking.go:89-107 | Reverting keeps every sum of a formulator right |
| `Ledger.PayDue` | process/formulator/formulator.go:570-600 | Paying the tickets of a height, in any order, adds to the balance of every account exactly its own tickets, leaves none of them and all others, and makes or loses nothing |
| `Ledger.PayAllGives` | process/formulator/formulator.go:574-576 | Whatever tickets are paid, in whatever order, every account gets exactly its own |
| `Ledger.PayAllConserves` | process/formulator/formulator.go:570-600 | Paying any list of tickets makes and loses nothing and keeps every sum |
| `Ledger.CloseHyper` | process/formulator/formulator.go:525-553 | A formulator can be closed if and only if its sum is that of its stakes and nobody is listed without one; then every staker has its own stake back in its balance, all else is as before, and nothing is made or lost |
| `Ledger.GiveBack` | process/formulator/formulator.go:531-549 | The loop that gives every stake back to its own staker, with its exact success condition and what each error means |
| `Ledger.AutoStakeIff` | process/formulator/formulator.go:442-444 | A reward staked at once leaves the sum of the formulator right if and only if it is zero |
| `Ledger.DropStakerIff` | process/formulator/formulator.go:260-269 | Dropping the stake of an account that is gone leaves the sum right if and only if there was none |
| `Ledger.TakeStakesSupply` | process/formulator/tx_transmute.go:144-157 | What a transmutation takes from the stakes is exactly what is missing afterwards, for the deposit of the new formulator |
| `Ledger.TakeStakesKept` | process/formulator/tx_transmute.go:144-157 | A transmutation keeps every sum of a formulator right |
| `Ledger.TakeStakesIff` | process/formulator/tx_transmute.go:94-117 | It succeeds if and only if of every formulator no more is asked, over all its entries, than is staked there |
| `Ledger.Transmute` | process/formulator/tx_transmute.go:144-157 | The loop without a snapshot: it succeeds if and only if of every formulator no more is asked than is staked, and on failure the stakes before the failing one stay taken |
| `Ledger.TransmuteIff` | process/formulator/tx_transmute.go:94-176 | For every transmutation that passes its checks, what is left and the deposit of the new formulator add up to what there was, if and only if of every formulator no more is asked, over all its entries, than is staked there |
| `Ledger.TwiceTheSame` | process/formulator/tx_transmute.go:94-157 | One formulator named twice, each amount covered and the sum not: the checks pass, the execution fails, and the first amount is gone |
| `LedgerMoves.ExecuteMoves` | process/vault/vault_method.go:158-174 | A transaction whose fee can be paid moves the fee, and if it succeeds its amount between the two places that it names, balance, stake or ticket, and nothing else of anybody |
| `LedgerMoves.ExecuteIff` | process/vault/vault_method.go:158-174 | It succeeds if and only if the fee and what it moves are there; without the fee nothing changes |
| `LedgerMoves.TakenMoves` | process/formulator/tx_transmute.go:144-157 | A transmutation takes from the sender at every formulator what is asked of it there, and nothing else of anybody |
| `LedgerMoves.TakenUpTo` | process/formulator/tx_transmute.go:144-157 | When it fails it is left with what it has taken before the first stake that is too small |
| `LedgerRuns.RunSupplyIff` | process/vault/vault_method.go:23-60 | Over every run of blocks of a faithful node, of transactions, transmutations, payments and saved blocks, what is owned (balances, fees, every single stake, stakes on their way back) together with the deposits of new formulators never grows, and it stays the same if and only if no transaction credits a balance, the fees, a stake or a ticket under a key that was deleted earlier in its block, and no transmutation fails after its checks |
| `LedgerRuns.SourceSupplyIff` | core/types/context.go:196-276 | The same equivalence over every run of the node of the source itself, without a hypothesis on the node |
| `LedgerRuns.TransmuteLosesIff` | process/formulator/tx_transmute.go:94-157 | Where the books are in order, a transmutation in a run loses coins if and only if it passes its checks and more is asked of some formulator, over all entries, than is staked there |
| `LedgerRuns.LayeredNodeIsFaithful` | core/types/context.go:196-276 | The node of the source is faithful in the sense of these runs: an event does to the coins that its context shows what it does to plain coins, less exactly what a committed transaction stores under keys deleted earlier in the block |
| `LedgerBooks.CommitClean` | core/types/context.go:214-276 | A transaction that adds no deleted key keeps the books in order and loses nothing in the commit |
| `LedgerBooks.TransmuteClean` | process/formulator/tx_transmute.go:144-157 | A transmutation, failed or not, keeps every index exact and every sum right and sets no key that was deleted earlier in the block |
| `LedgerRuns.RunClean` | core/chain/block_creator.go:88-141 | A run of blocks of a faithful node in which no transaction stores anything under a key deleted earlier in its block, and no transmutation fails after its checks, shows what the same run makes of plain coins: what is owned is kept but for the deposits of new formulators, every formulator lists exactly those with a stake, and its sum is that of their stakes |
| `LedgerRuns.SourceClean` | core/chain/block_creator.go:88-141 | The same over every such run of the node of the source itself |
| `LedgerRuns.PaidBackIsLost` | process/vault/vault_method.go:36-60 | A block of two transfers, for all amounts: one account sends all it has and is paid something back; both succeed, and in the saved state what was paid back is gone |
| `LedgerRuns.RestakedIsLost` | process/formulator/formulator_method.go:63-114 | A block in which a staker takes back all its stake and stakes again at the same formulator, for all amounts and whoever else has staked there: both succeed, the formulator counts the new stake in its sum, and in the saved state the stake is gone |
| `LedgerRuns.StakeIsNotListed` | process/formulator/formulator_method.go:63-114 | A block in which the only staker of a formulator takes back all and somebody stakes after it: both succeed, and the books are out of order: the first number leads to nobody, and when it is the same staker the stake itself is gone |
| `LedgerRuns.Emptied` | core/types/context.go:237-245 | A key that a transaction empties is deleted in the layer of the block, and no later transaction of the block lifts that |
| `LedgerRuns.SavedShows` | core/chain/store.go:1142-1190 | What is saved of a block reads as its layer did, under the new layer of the next block |
| `LedgerRuns.FlushPays` | process/formulator/formulator.go:570-600 | On the layered context the payment of tickets adds to every balance exactly the tickets of its own account, and leaves none of them |
| `LedgerRuns.DoMoves` | process/vault/vault_method.go:158-174 | On the layered context a transaction moves in every balance what it names, unless the key of the balance was deleted earlier in the block |
| `LedgerBlocks.CommitSupplyIff` | core/types/context.go:214-276 | A committed transaction never adds to what is owned, every stake counted for itself, and keeps it if and only if none of the keys that it credits, of a balance, the fees, a stake or a ticket, was deleted earlier in the block |
| `LedgerBlocks.DropHoldings` | core/types/context.go:237-245 | Losing keys never adds to what is owned, and takes nothing off it if and only if no coins stand under them |
| `LedgerBlocks.TransmuteCommits` | process/formulator/tx_transmute.go:94-176 | A committed transmutation, whatever was deleted before and whatever the sums of the formulators are: with the deposit nothing is lost if and only if it succeeds |
| `LedgerBlocks.TransmuteShows` | process/formulator/tx_transmute.go:144-157 | On the layered context, without a fee or a snapshot inside, a transmutation takes what it takes from plain coins, and on failure the part before it is committed |
| `LedgerHoldings.ExecuteHoldings` | process/vault/vault_method.go:158-174 | No transaction, successful or not, makes or loses anything on plain coins when every stake is counted for itself, also where the sums of formulators are wrong |
| `LedgerHoldings.KeptHoldings` | process/formulator/formulator_method.go:63-114 | Where the sums of formulators are right, counting the stakes one by one and counting the sums is the same |
| `LedgerBlocks.ExecuteShows` | core/types/context.go:214-276 | A committed transaction leaves what it makes of plain coins, less exactly what is stored under keys that were deleted earlier in the block |
| `LedgerBlocks.WithFeeShows` | process/vault/vault_method.go:158-174 | Paying the fee, the snapshot for the rest and its commit or revert do, on the layer of the transaction, what they do to plain coins: the inner commit never loses anything |
| `LedgerBlocks.CommitGives` | core/types/context.go:214-276 | After a commit every key and account reads as before, but those that the layer below has deleted |
| `LedgerBooks.CommitBooksIff` | process/formulator/formulator_method.go:63-114 | A committed transaction leaves every index exact and every sum right, if and only if none of the keys that it adds to an index was deleted earlier in the block |
| `LedgerBooks.LosingBreaks` | process/formulator/formulator_method.go:63-130 | Losing any of the four keys of a stake leaves its index out of order or the sum wrong |
| `LedgerLayers.ActMatches` | process/formulator/tx_staking.go:90-112 | On the layered context transfer, staking, unstaking and its reversal, key by key, succeed exactly when they do on plain coins, and then show the same coins |
| `LedgerLayers.AddStakingShows` | process/formulator/formulator_method.go:63-77 | Setting number, reverse, count and amount of a stake is adding to the index |
| `LedgerLayers.SubStakingShows` | process/formulator/formulator_method.go:79-114 | Swapping, deleting and counting down key by key is taking away from the index, also where the index is broken and the count wraps |
| `LedgerInBlock.AddedShows` | core/chain/block_creator.go:88-141 | The maker of a block commits a transaction with its result whether it fails or not, and the stack shows the coins of the plain transaction, less what is stored under keys deleted earlier in the block |
| `AmountText.RoundTripIff` | common/amount/amount.go:179-220 | An amount comes back from its text if and only if it is not negative and below 2^63 coins; from there to 2^64 coins it comes back negative, all others are refused |
| `AmountText.ParseMeans` | common/amount/amount.go:198-220 | What a text with a dot means, exactly which texts are read, and exactly which make the parser crash |
| `AmountText.FormatFractional` | common/amount/util.go:3-19 | The buffer loop gives 18 digits without trailing zeros |
| `AmountText.PadFractional` | common/amount/util.go:21-36 | The buffer loop gives the fraction filled up to 18 digits without leading zeros, and crashes exactly when it is longer |
| `AmountText.PaddedValue` | common/amount/util.go:21-36 | Filling up a fraction multiplies its value by the missing powers of ten |

## Left out

- The p2p layer, peers, status and block request messages, the messages to formulators, and the clocks behind pacing and the list of ignored formulators: they only decide which events happen, and every event is allowed.
- Signature cryptography, hashing and encoding: signatures and hashes are ideal, and hashes are taken to be injective.
- The block timer connects up to a hundred blocks in one turn; here each is an event of its own.
- 32-bit wrap-around of heights and of rank phases: heights and phases are unbounded, except that the remaining blocks of a formulator are proved not to wrap.
- I/O errors other than those of reading beyond the end of a file: a write or a sync is assumed to succeed or to be cut off by a crash.
- gzip is a codec with the law that decompressing gives back what was compressed.
- PileDB.DB.AppendData: requires the offsets of a chunk to stay below 2^63 and chunk heights below 2^32; the source does not check either.
- PileDB.DB.Roll: requires the heights of the next chunk to stay below 2^32, as the 32-bit heights of the source do.
- PileRead.DataBack: and the other reading theorems ask that the compressed size of each item fits into the four bytes of the size table.
- PileDB.DB.AppendData: a chunk is only entered when the caller's height is the next one; the timer that syncs in the background is the parameter that asks for a sync.
- LinkedQueue is modelled on values inside the pool, so its pointers and their aliasing are not captured; its left-over keys are.
- TxPoolNode.TransactionPool.PopItem: requires the counts to be right, which `TxPool.RunCounts` proves for every reachable pool.
- TxPoolContents.RunHashed: takes the hash of a transaction to determine it.
- Account names, UTXOs, events and process data of a context: their maps have the same layers and the same tombstones as account data.
- Overlay.RunRefines: is stated where no key is set above a tombstone; `Overlay.MergeReads` says what happens otherwise.
- BlockChecks.ExecutedIsMade: asks that the hooks make no difference between the block and the one with a result of zero for each transaction without a sender, for which the source compares nothing.
- BlockChecks.SequencesFollow: is about accounts that no transaction of the block deletes, since a deletion resets the sequence; a transaction is taken not to count sequences itself.
- RankRotation.EverybodyTurns: is about blocks without timeouts and account changes, and counts neither skipped turns nor a phase limit.
- TxPoolOrder.RunInOrder: is about runs without removals in which every pop finds something due and nothing stale; `TxPoolDue.PopIff` and `TxPoolContents.TurnLostIff` say what happens otherwise.
- TurnHeights.HeightsAreTurn: takes the rank table and the count of blocks of a chain as given; that a node computes them is `Consensus.Consensus.OnSaveData`.
- BlockExec.MadeExecutes: takes a transaction to change only the layers above its snapshot; the recovery of signers from signatures is left out.
- Recovery.RecoversCrashFree: the state database is one atomic update, as its transactions are; the crash safety of the log file is that of `PileRuns.CrashSafeRun` with sync mode on.
- Deposits of formulators, heritors, revocation and the index of revoked formulators and of pending unstakes: the same index as that of stakes, or plain moves of a balance.
- Ledger.RunConserves: is about plain coins; `LedgerRuns.RunSupplyIff` says when the layered context keeps them. The smallest amounts and account types that transactions validate before they are executed are left out.
- Ledger.TakeStake: takes the sum of the formulator to be checked where the stake is taken, so that a sum below the amount fails after the fee is paid, or midway in a transmutation; the source refuses such a transaction before it is executed and does not look again. The two differ only where the books are out of order.
- Ledger.TransmuteIff: the deposit of the new formulator is a number, not an account; so it is in the runs of `LedgerRuns.RunSupplyIff`, where heights and the total that a deposit must have are not checked.
- LedgerRuns.RunSupplyIff: the context is passed as a value, so that reads leave no copies (`Overlay.CopyCommits` says that these make no difference); the pending unstakes of one staker are keys of their own, not one map, and their index is left out, since transactions with amounts above zero never delete its keys.
- LedgerRuns.RunClean: amounts are above zero, as validation demands, and counts of stakers below 2^32.
- LedgerInBlock.AddedShows: validation is taken to succeed and to change nothing.
- Rewards.PayOut: requires a commission of at most 1000 thousandths and some power; without power the reserve is dropped by the source, and how powers are accumulated is left out.
- AmountText.ParseMeans: texts are sequences of characters; the library functions for splitting and for decimal numbers are taken at their documented meaning.
- Outside the model: RPC, wallets, the explorer, the admin, gateway and payment processes, the creation and revocation of formulators, locked balances, and the command-line programs.
