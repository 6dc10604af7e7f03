# LiquidityPub in Dafny

A model of the LiquidityPub node and proofs about it. A node keeps one constant-product pool
per peer and commits three kinds of operation on it with that peer: the seed that opens the
contact, two-phase transfers, and consensual reserve adjustments. Two nodes never share a lock or
a clock; they only exchange signed envelopes over a network that loses, repeats and reorders them,
and either node may fall back to its last stored snapshot. The main results say what two honest
nodes keep in every state of every run all the same.

How the parts fit together:

- `NodeSpec` gives every handler and operation of a node as a function on the node's value;
  `Contacts` and `Nodes` are the same operations as classes whose methods update contact,
  transfer records, ledger and outbox in place, each proved to do exactly what its function says.
- `Messages`, `TransferStates` and `ChannelHistory` are the envelopes with their gate, the
  transfer table, and the operation history with its reserves and its hash chain.
- `ProtocolInvariant` states the invariant of two nodes on the part of the state that decides who
  may commit what; `ProtocolMoves`, `ProtocolCommits`, `ProtocolAdjusts` and `ProtocolFunds` show
  that each atomic move keeps it. `NodeInvariant`, `NodeRecords` and the `Node...Steps` modules
  show that every handler is a sequence of such moves and keeps the ledger in step; `NodeGrowth`,
  `NodeFrames` and `NodeTriggers` say what a step never takes back, what it leaves alone, and
  which message brings what about. `NodeGate` is the receiver's gate with what it remembers,
  `NodeMoney` says which balances each booking moves, `NodeShut` what a closed or frozen contact
  refuses, and `NodeAnswers` gives the exact condition of every answer.
- `Systems` is the pair of nodes with its network, disks and published checkpoints;
  `SystemInvariant` and `SystemRuns` carry the invariant over whole runs, and `SystemSafety`,
  `SystemPromises` and `SystemTheorems` state the results. `SystemTurns` gives a run its schedule,
  whose turn each step was and which clock it read; `SystemOutcomes`, `SystemRetries` and
  `SystemDeadlocks` say over every schedule when a payment commits and settles, what a request
  gets that comes again, and which states nothing leads out of; `SystemFutures` and
  `SystemOpenings` say exactly when a committed payment and a pending contact wait for ever.
  `SystemShut`, `SystemReplies`, `SystemCheckpoints` and `SystemTerms` follow over whole runs what
  closing and freezing bring, what a repeated envelope gets, what a published position promises,
  and the terms a payment is made on. `SystemExamples` holds concrete runs that reach the bad
  states.
- `PoolPricing`, `CanonicalJson` (with `StringOrder`), `Ledgers` (with `LedgerTotals`,
  `LedgerIdentity`, `NodeLedger`, `Supply`), `Dividends`, `Delivery`, `SplitStore` and
  `Persistence` are the supporting parts, each with its own results. `ConformanceVectors` holds
  the model against the repository's conformance vectors.

Hashes are symbolic and collision-free; amounts and times are mathematical integers. An action of
a run carries what a node takes from outside: its clock, the identifiers it draws (which must be
unused), its configured auto-accept seed. `hide` statements in proofs only keep the solver from
unfolding definitions that a proof does not need.

Where code and documentation disagree, the code is modelled:

- PROTOCOL.md section 8.2 lets equal channel roots stand for equal reserves. The hashed tuple leaves
  out which side paid, so roots can agree while reserves differ (`EqualRootsUnequalReserves`);
  `EqualRootsEqualReserves` says exactly when they agree.
- The comment on `Load` says a truncated log is rejected. Any prefix of a valid log passes the
  audit (`PrefixVerifies`).
- `Append` is said to keep node wallets non-negative. It holds each entry against the balance
  before the transaction, so it does exactly for the transactions `AppendGuards` names;
  `UnsafeIsTaken` is one it takes although the wallet ends negative and its own audit then fails.
- A re-proposed adjustment is said to be acknowledged again so that a lost acceptance can be
  recovered. The operation number is compared first, and applying the adjustment moved it: an
  applied adjustment carries a number below the current one in every later state
  (`AppliedIsPast`), so the same proposal is stale for good, and one is acknowledged again exactly
  if it names the number current at that moment (`AdjustmentComesAgain`); `RecoveryMayBeRefused`
  shows a reachable state that refuses it.
- A peer that is merely behind is said never to be frozen. Restarting a node whose contact is
  still pending records a zero root for it (node/persist.go:227-232), and an honest peer's next
  checkpoint then freezes the contact (`HonestPeerMayBeFrozen`); `FreezesExactly` lists the two
  cases in which an honest checkpoint freezes, and `EarlyCheckpointFreezes` reaches the other one.
- Expiry is described as purely local and consistent. A payee that expires while a commit is on
  its way leaves the payment committed on one side for good (`CommitMayBeLost`,
  `StrandedForever`). A commit settles exactly if the payee's record is not expired when it is
  processed (`CommitSettlesExactly`), and a record is only ever expired by a turn of that side
  that read a clock past its expiry (`ClocksDecide`), so a commit processed before any such turn
  always settles (`CommitInTimeSettles`).
- A committed transfer is said to resolve by its receipt (conformance/statemachine.go:14-15). It
  stays committed in every continuation of a run exactly if the payee expired it, or its commit was overtaken by a later message, or it
  was paid out and its receipt was overtaken; otherwise some continuation settles it
  (`CommittedForever`). `CommitMayBeOvertaken` loses one without any expiry.
- A dropped acceptance or commit is said not to pin a contact (node/README.md:84-86). Expiry only
  covers transfers: a proposed adjustment keeps its proposer's contact locked for ever once the
  peer has processed the proposal and no acceptance is left to process, because it was refused or
  because its acceptance was overtaken (`AdjustmentStaysLocked`); while one is left, processing it
  frees the contact (`AcceptanceFrees`). Two adjustments proposed at once lock both sides
  (`AdjustmentsMayCross`), and two openings proposed at once leave both contacts pending for ever
  (`CrossedOpenings`, `OpeningsMayCross`). In general a proposed contact stays pending for ever
  exactly if no acceptance is left to process and none will be sent (`PendingForever`).
- Reserves of a closed contact are said to survive until withdrawn by consent
  (docs/PROTOCOL.md:255, node/contact.go:250-252). A closed contact starts and accepts no
  adjustment (`ShutTradesNoMore`), so once nothing is under way on it the reserves never move
  again (`ReservesRest`); only `RetireReserve` empties the wallet.

## Model

| member | source | states |
|---|---|---|
| SystemSafety.NeverFork | node/transfer.go:45-311 | in every reachable state, in memory or on disk, one side's operation history is a prefix of the other's and at most one operation shorter |
| SystemTheorems.NothingTakenBack | node/handlers.go:165-176 | over a run, through any restarts, both histories and ledgers only get longer, and committed and settled transfers stay so |
| SystemSafety.ReservesMirror | node/contact.go:71-118 | two active contacts at the same op_seq have mirrored reserve counters, the same root and the same list of roots |
| SystemSafety.Sides | node/contact.go:137-248 | an active contact has the peer's contact as its other end: same id, opposite roles |
| SystemSafety.OutcomesAgree | node/transfer.go:179-345 | only compatible pairs of payer and payee states are reachable, an aborted payee only beside an aborted or expired payer, and both sides agree on the transfer's terms |
| SystemSafety.IncomingWasProposed | node/transfer.go:120-175 | a payee only has transfers its peer proposed |
| SystemSafety.PaidOnce | node/transfer.go:205-281 | at most one transfer.out and one transfer.in per transfer, no in without its out, exactly one of each once the payer settled, and an out exactly when the payer committed |
| SystemSafety.WalletIsReserve | node/transfer.go:256-270 | the wallet kept for the peer equals MyReserveOfPeer, both counters are the fold of the history, the wallet is never negative, and the log passes its audit |
| SystemPromises.LockIsLive | node/transfer.go:87-88 | a contact is busy exactly while one operation is live, and BusyTransfer names that one |
| SystemPromises.SweptLocks | node/expiry.go:38-52 | after a sweep past every expiry only a committed outgoing transfer or a pending adjustment holds a lock |
| SystemPromises.ProposalNeverStale | node/transfer.go:120-175 | an idle open payee answers an honest proposal with accept, or with unknown-member: never stale-pool, price-mismatch, dust or malformed |
| SystemPromises.AdjustmentNeverStale | node/reserve.go:64-112 | an idle open node accepts an honest adjustment: never stale-pool, insufficient-reserve or malformed |
| SystemPromises.RouteNeverFails | node/handlers.go:187-227 | no handler of a node in step with its peer answers with an internal error |
| SystemTheorems.NoLegIsRefused | node/transfer.go:256-266 | accepting is a promise: in no run does the ledger refuse a seed, a payment leg or an adjustment, so no internal error is ever sent |
| SystemTheorems.TradesNeverDrain | node/transfer.go:219-220 | over any stretch of committed transfers in a reachable history both reserves stay positive, their product never falls, and no side gains on both currencies |
| SystemTheorems.FreezesExactly | node/reconcile.go:64-71 | a current or stale checkpoint of an honest peer freezes a contact in exactly two cases: taken while pending and compared by an active contact, or showing operation 0 to a pending contact that was restarted |
| SystemTheorems.ForkIsDetected | node/reconcile.go:57-71 | comparing any peer history at an index both have reached freezes exactly when some operation up to there differs in type, id or amounts, also when the peer is behind |
| SystemShut.ShutForever | node/transfer.go:128-137 | over every schedule what was closed or frozen at one index is at every later one, in memory and on disk, and from then on no transfer, no pending and no applied adjustment is added |
| SystemShut.ShutTradesNoMore | node/transfer.go:132-137 | after a freeze or a closing the node's own payments and adjustments are refused, a proposal past the gate is answered frozen (unknown-contact once closed) and an adjustment contact-frozen, with transfers, contact and ledger unchanged |
| SystemShut.ShutByTurn | node/reconcile.go:64-71 | in every state of every run a contact is frozen only if an earlier comparison of its own node found another root, and closed only if its node closed it or took in the peer's word |
| SystemShut.ActShuts | node/contact.go:253-280 | an action freezes exactly by a comparison that freezes and closes exactly by closing or by the peer's closing message past the gate; on a shut contact it takes nothing up and takes no lock |
| SystemShut.ReservesRest | node/contact.go:250-270 | over every schedule, once a contact is shut with nothing under way as stored, both reserve counters, the operations and every transfer stay as they are in every later state, in memory and on disk |
| NodeShut.ShutAnswers | node/reserve.go:64-75 | what a shut contact answers to a proposal and to an adjustment past the gate, and that nothing else changes |
| NodeShut.ShutRefuses | node/reserve.go:20-34 | on a shut contact starting a payment or an adjustment fails, sends nothing and changes nothing |
| NodeShut.CloseMarks | node/contact.go:253-270 | closing marks the contact, tells the peer and changes nothing else |
| NodeShut.ClosedByPeer | node/contact.go:272-280 | the peer's closing message marks the contact and changes nothing else |
| NodeShut.FreezeMarks | node/reconcile.go:64-71 | comparing a checkpoint freezes exactly on another root at an index both have, for good, and changes nothing else |
| SystemReplies.AnsweredAlike | node/handlers.go:150-176 | over every schedule an envelope once accepted is at every later index, in memory and on disk and at any clock, a duplicate that changes nothing and gets exactly the answer it got the first time, or none if it got none |
| SystemReplies.AnswersStand | node/handlers.go:165-176 | across any stretch of a run, restarts included, no accepted id is forgotten and no stored answer changes |
| SystemCheckpoints.CheckpointsWereReached | node/handlers.go:369-383 | in every state of every run memory and disk stand at or past the position of every checkpoint the node ever published |
| SystemCheckpoints.PostIsCurrent | node/handlers.go:369-383 | a checkpoint shows, when published, the contact, its operation number, the root of its whole history, and exactly the position processed |
| SystemCheckpoints.PruningIsSafe | node/reconcile.go:84-103 | in every state of every run, pruning any end of the peer's log by any checkpoint ever published leaves the log from that position on, so every envelope not yet processed, in memory or on disk, stays |
| SystemTerms.TermsAgree | node/transfer.go:92-107 | in every state of every run what a node is to be paid is its peer's outgoing transfer with the same payer, payee, amounts, operation number and expiry |
| SystemTerms.ProposalIsRecorded | node/transfer.go:80-101 | in every state of every run a proposal that was sent stands, under the terms it names, in its node's own records |
| SystemTerms.NamedPayeeIsPaid | node/transfer.go:256-266 | in every run the commit that settles pays exactly the priced amount to exactly the member the payer's side named, with or without the host, out of the payer's wallet, and moves no other balance |
| SystemTerms.RejectionFrees | node/handlers.go:305-322 | in every reachable state a rejection past the gate ends the standing proposal it names and frees the contact, and changes nothing otherwise |
| SystemTerms.AbortionFrees | node/handlers.go:324-341 | in every reachable state an abort past the gate ends the standing acceptance it names and frees the contact, and changes nothing otherwise |
| SystemOutcomes.CommitSettlesExactly | node/transfer.go:234-282 | in every reachable state a commit past the gate settles the payment exactly if the payee has not expired it; settled, it is answered with the receipt kept beside it, and otherwise refused with no transfer changed |
| SystemOutcomes.AcceptanceCommitsExactly | node/transfer.go:179-229 | in every reachable state an acceptance past the gate finds the payer paid exactly if it had paid before, or the proposal stands and its clock is within the expiry; past it the transfer expires, the ledger is untouched and the payee is told |
| NodeMoney.PaymentLeaves | node/transfer.go:205-214 | in every reachable state the acceptance that commits moves exactly src from the named member, given with or without its host, into the peer's wallet, and no other balance, in one transfer.out record about that transfer |
| NodeMoney.PayoutArrives | node/transfer.go:255-264 | in every reachable state the commit that settles moves exactly dst from the peer's wallet to the named member, given with or without its host, and no other balance, in one transfer.in record about that transfer |
| NodeMoney.SeedIsPlaced | node/contact.go:291-304 | the proposer's seed goes from issuance into the peer's wallet, and no other balance moves |
| NodeMoney.OwnSeedIsPlaced | node/contact.go:291-304 | so does the responder's |
| NodeMoney.AdjustmentIsBooked | node/reserve.go:129-139 | a booked adjustment moves its delta, of either sign, from the treasury into the peer's wallet |
| NodeMoney.OthersBookNothing | node/handlers.go:187-227 | no message but those five, in the states that book, changes the ledger |
| NodeMoney.LocalPartOf | node/transfer.go:36-41 | an address names the member before its first at sign |
| SystemTurns.ClocksDecide | node/expiry.go:18-35 | over every schedule a transfer is expired at a side only after a turn of that side read a clock past its expiry, and its payer has paid only in a turn within it |
| SystemOutcomes.CommitInTimeSettles | node/transfer.go:234-282 | a commit processed before any turn of the payee read a clock past the expiry settles the payment, for either side and any schedule |
| SystemDeadlocks.StrandedForever | node/expiry.go:18-35 | for either side as payer: a payment committed by the payer and expired by the payee stays that way, and the payer's contact stays locked by it |
| SystemFutures.CommittedForever | node/transfer.go:231-311 | a committed payment stays committed in every continuation of a run exactly if the payee expired it, or its commit was overtaken unsettled, or it was paid out and its receipt was overtaken; otherwise some continuation settles it |
| SystemFutures.LostStays | conformance/validate.go:66-79 | over every schedule a payment lost on disk stays lost in memory and on disk, whatever restarts |
| SystemFutures.CanSettle | node/transfer.go:231-311 | from every reachable state a committed payment that is not lost is settled by some further turns |
| SystemOpenings.PendingForever | node/contact.go:168-248 | a proposed contact stays pending in every continuation exactly if no acceptance is left to process and none will be sent, because the peer has a contact or the proposal was processed or overtaken; otherwise some continuation activates it |
| SystemDeadlocks.AdjustmentStaysLocked | node/reserve.go:115-148 | over every schedule an adjustment whose proposal the peer processed and for which no acceptance is left to process stays pending, and its contact locked, in every later state |
| SystemDeadlocks.RefusedIsUnanswered | node/reserve.go:64-99 | a proposal that was processed and is not among the applied ones never has an acceptance |
| SystemDeadlocks.AcceptanceFrees | node/reserve.go:115-148 | in every reachable state an acceptance past the gate books the pending adjustment it names and frees the contact |
| SystemDeadlocks.CrossedOpenings | node/contact.go:143-193 | when both nodes proposed the contact, both stay pending for ever and each refuses the other's proposal as a duplicate |
| SystemExamples.StoryIsRun | node/transfer.go:179-229 | a concrete run: open, grant, pay, accept, commit, and the payee's expiry |
| SystemExamples.CommitMayBeLost | node/expiry.go:38-52 | payer COMMITTED with payee EXPIRED is reachable: the case that CommitSettlesExactly excludes does happen |
| SystemExamples.HonestPeerMayBeFrozen | node/persist.go:227-232 | an honest active peer's current checkpoint can freeze a proposer that restarted while pending |
| SystemExamples.EarlyCheckpointFreezes | node/handlers.go:369-383 | an active responder that compares with what its honest peer published while pending freezes the contact |
| SystemExamples.CommitMayBeOvertaken | node/handlers.go:142-182 | a payment can be lost though nothing expired: a later message of the payer overtakes its commit |
| SystemExamples.AdjustmentsMayCross | node/reserve.go:76-79 | two adjustments proposed at once refuse each other, which leaves both sides with an adjustment nothing will answer |
| SystemExamples.RecoveryMayBeRefused | node/reserve.go:82-99 | an open, idle node that applied an adjustment can refuse the same proposal as stale when it comes again |
| SystemExamples.OpeningsMayCross | node/contact.go:137-166 | both nodes can come to have proposed the contact |
| SystemRuns.RunOk | node/handlers.go:119-183 | the invariant of the pair holds in every state of every run, for every combination of memory and disk |
| SystemRuns.RunGrows | node/persist.go:60-82 | what either node stored, sent or published is never lost or changed later |
| SystemRuns.StepOk | node/handlers.go:119-183 | each action of one node, storing or not, keeps the invariant and takes nothing back |
| SystemRuns.RestartOk | node/persist.go:147-252 | starting again from the stored snapshot keeps the invariant |
| SystemInvariant.UnstoredBehind | node/expiry.go:72-79 | whatever an action changes without storing it is an expiry |
| NodeInbound.ProcessInboundGood | node/handlers.go:119-183 | processing any envelope of the peer at any time keeps the invariant, and every answer given, new or repeated, is one written envelope |
| NodeInbound.RouteAt | node/handlers.go:163-172 | moving the receive position before or after the handler makes no difference |
| NodeTransferSteps.StartTransferGood | node/transfer.go:45-107 | starting a transfer under a fresh id keeps the invariant, refused or not |
| NodeTransferSteps.TransferProposeGood | node/transfer.go:120-175 | answering a proposal keeps the invariant, whichever check turns it down |
| NodeCommitSteps.TransferAcceptGood | node/transfer.go:179-229 | answering an acceptance, including the late and the repeated one, keeps the invariant |
| NodeCommitSteps.CommitRuns | node/transfer.go:203-229 | the payer's leg is always taken by the ledger, and the commit is sent |
| NodeCommitSteps.TransferCommitGood | node/transfer.go:234-282 | answering a commit, first or repeated, keeps the invariant, and a repeated one gets a receipt already sent |
| NodeCommitSteps.SettleRuns | node/transfer.go:249-281 | the payee's leg is always taken by the ledger, and the receipt is kept |
| NodeCommitSteps.TransferReceiptGood | node/transfer.go:285-311 | a receipt settles a committed transfer, frees the contact and keeps the invariant |
| NodeCommitSteps.TransferRejectGood | node/handlers.go:305-322 | a rejection frees only a proposal the payee never took up |
| NodeCommitSteps.TransferAbortGood | node/handlers.go:324-341 | an abort frees only an acceptance whose payer gave up |
| NodeCommitSteps.AbortTransferGood | node/transfer.go:316-345 | aborting before the commit keeps the invariant |
| NodeAdjustSteps.AdjustReserveGood | node/reserve.go:20-60 | proposing an adjustment keeps the invariant |
| NodeAdjustSteps.ReserveAdjustGood | node/reserve.go:64-112 | mirroring an adjustment, or re-acknowledging one, keeps the invariant |
| NodeAdjustSteps.AdjustBooked | node/reserve.go:129-139 | booking an accepted adjustment is never refused by the ledger |
| NodeAdjustSteps.ReserveAcceptGood | node/reserve.go:115-148 | booking an accepted adjustment keeps the invariant |
| NodeOpenSteps.ContactProposeGood | node/contact.go:170-213 | answering an opening, refused or not, keeps the invariant |
| NodeOpenSteps.ContactAcceptGood | node/contact.go:217-248 | activating a pending contact keeps the invariant |
| SystemRetries.CommitComesAgain | node/transfer.go:245-247 | over a run and any restarts, a commit of a transfer once paid out gets the receipt of that payout at every later index, and changes nothing |
| SystemRetries.AppliedIsPast | node/reserve.go:82-85 | over every schedule an applied adjustment carries an operation number below the current one |
| SystemRetries.AdjustmentComesAgain | node/reserve.go:82-99 | in every reachable state with an open, idle contact an applied adjustment proposed again is acknowledged exactly if it names the current operation number, is stale under its own number, and changes nothing |
| NodeSteps.ExpireGood | node/expiry.go:18-35 | expiring a transfer at any time keeps the invariant and only releases its own lock |
| SystemInvariant.InboundGrows | node/handlers.go:119-227 | processing any envelope of the peer never shortens a history or a log and never reopens a finished transfer |
| NodeFrames.RouteFrame | node/handlers.go:187-227 | handling a message expires a transfer only past its time, lets its payer pay only within it, leaves settled ones as they are with their receipts, and touches adjustments only as their own messages say |
| NodeTriggers.RouteMoves | node/handlers.go:187-227 | only its commit or receipt settles a transfer and only an acceptance activates a pending contact; a commit, a receipt and an acceptance are newly sent only in answer to their own message, from the state that owes it |
| NodeAnswers.StartsExactly | node/transfer.go:45-107 | a payment starts exactly on an open contact that is free or overstayed, for a positive amount, by an active member who has it, at a price that exists; started, record and proposal carry the same terms for one hour, and refused nothing is sent or taken up |
| NodeAnswers.NoOverdraft | node/transfer.go:72-75 | a payment above the member's balance is refused |
| NodeAnswers.ProposalExactly | node/transfer.go:120-175 | whatever it says, a proposal is taken up under its own terms exactly if no reason speaks against it, and otherwise rejected for the first one in order |
| NodeAnswers.ReleasesExactly | node/expiry.go:72-79 | an overstayed lock is cleared with its transfer expired, and any other lock stays |
| NodeAnswers.AbortsExactly | node/transfer.go:316-345 | the payer's abort takes exactly an outgoing proposal or acceptance, ends it, frees its lock and tells the peer |
| NodeAnswers.AdjustsExactly | node/reserve.go:20-60 | an adjustment starts exactly on an open, free contact for a delta that is not zero and leaves the reserve at or above it |
| NodeAnswers.AdjustmentExactly | node/reserve.go:64-112 | whatever it says, an adjustment is acknowledged and mirrored once exactly if no reason speaks against it, and otherwise refused for the first one in order with no reserve moved |
| NodeAnswers.OpensExactly | node/contact.go:137-166 | a contact is opened exactly once per peer and with a positive seed |
| NodeAnswers.OpeningExactly | node/contact.go:170-213 | a proposed contact is refused for the first reason in order, and otherwise active on both seeds |
| NodeAnswers.ActivationExactly | node/contact.go:217-248 | an acceptance activates exactly the node's own pending contact, on both seeds |
| NodeAnswers.ReceiptExactly | node/transfer.go:285-311 | a receipt settles exactly a committed outgoing transfer and frees its lock |
| NodeAnswers.PaymentErrors | node/transfer.go:179-311 | an acceptance, commit or receipt for no such transfer, another contact's transfer, or a dead one gets unknown-transfer, wrong-sender or bad-state |
| NodeAnswers.SmallAnswers | node/handlers.go:187-227 | a ping gets a pong and an unknown message an error |
| NodeGate.PassesExactly | conformance/validate.go:66-96 | an envelope passes exactly if its id is new, its number past the last, and its age between an hour ahead and seven days |
| NodeGate.RefusedFor | conformance/validate.go:66-96 | each refusal has its exact condition, a known id before all others |
| NodeGate.GateKeeps | node/handlers.go:142-182 | passing moves the position to the envelope, enters its id and keeps its answer beside the others; not passing changes nothing, and only a known id is answered |
| NodeGate.PolledTail | node/pull.go:17-33 | polling an honest list takes in every envelope past the position: they are what is counted and seen, and the position ends at the end of the list |
| ProtocolMoves.Reading | conformance/validate.go:66-79 | an envelope past the receive position can be relied on: a proposal is new here and priced at this side's position unless it is blocked, an acceptance finds both histories equal |
| ProtocolCommits.CommitKeeps | node/transfer.go:199-223 | committing a proposed transfer both sides know keeps the invariant |
| ProtocolCommits.SettleKeeps | node/transfer.go:247-276 | settling a transfer the payer committed keeps the invariant |
| ProtocolCommits.FinishKeeps | node/transfer.go:298-309 | learning of the settlement keeps the invariant |
| ProtocolAdjusts.ApplyKeeps | node/reserve.go:100-107 | the responder applying first keeps the invariant |
| ProtocolAdjusts.BookKeeps | node/reserve.go:128-147 | the proposer booking second makes the two histories equal and keeps the invariant |
| ProtocolFunds.TransferFunded | node/transfer.go:219-220 | committing a live transfer leaves both reserves covered and every price tied to the reserves it was computed from |
| NodeRecords.BookedExtends | node/ledger/ledger.go:131-166 | a booked transaction moves every balance by its entries, adds exactly its own record, and keeps the audit passing |
| NodeInvariant.TransferRooted | node/contact.go:95-104 | the recorded roots stay the hash chain over the prefixes of the history |
| ChannelHistory.RootsAgree | conformance/reference.go:186-203 | two channel roots are equal exactly when contact and all operation tuples agree |
| ChannelHistory.EqualRootsUnequalReserves | conformance/reference.go:192-203 | equal roots with unequal reserves: the tuple leaves out who paid |
| ChannelHistory.EqualRootsEqualReserves | conformance/reference.go:192-203 | under equal roots reserves agree throughout exactly when every operation is charged to the same side |
| TransferStates.CommitIsFinal | conformance/statemachine.go:18-47 | no run of events revives a dead transfer or takes back a commit |
| Contacts.Contact.RecordRoot | node/contact.go:85-90 | the root list is padded up to op_seq and holds the current root there |
| Contacts.Contact.ApplySeed | node/contact.go:71-81 | operation 0 folded from the contact id and both seeds |
| Contacts.Contact.ApplyTransfer | node/contact.go:95-104 | a transfer folded into the root, op_seq up by one |
| Contacts.Contact.ApplyAdjust | node/contact.go:109-118 | an adjustment folded into the root, op_seq up by one |
| Nodes.Node.BuildSigned | node/envelope.go:24-56 | the next sequence number, and the envelope at the end of the outbox |
| Nodes.Node.ExpireIfDue | node/expiry.go:18-35 | expires exactly a due proposed or accepted transfer, in place |
| Nodes.Node.SweepExpired | node/expiry.go:38-52 | every listed due transfer expired, in any walk order, and the count is the number of listed transfers that were due |
| Nodes.Node.OpenContact | node/contact.go:137-166 | the pending contact entered and the proposal sent, as specified |
| Nodes.Node.HandleContactPropose | node/contact.go:170-213 | the responder's side in place, as specified |
| Nodes.Node.HandleContactAccept | node/contact.go:217-248 | the proposer's activation in place, as specified |
| Nodes.Node.StartTransfer | node/transfer.go:45-107 | the payer's entry in place, as specified |
| Nodes.Node.HandleTransferPropose | node/transfer.go:120-175 | the payee's checks in their order and its lock, as specified |
| Nodes.Node.HandleTransferAccept | node/transfer.go:179-229 | the payer's commit in place, as specified |
| Nodes.Node.HandleTransferCommit | node/transfer.go:234-282 | the payee's settlement in place, as specified |
| Nodes.Node.HandleTransferReceipt | node/transfer.go:285-311 | the payer's settlement in place, as specified |
| Nodes.Node.HandleTransferReject | node/handlers.go:305-322 | a rejection in place, as specified |
| Nodes.Node.HandleTransferAbort | node/handlers.go:324-341 | an abort in place, as specified |
| Nodes.Node.AbortTransfer | node/transfer.go:316-345 | the payer's abort in place, as specified |
| Nodes.Node.AdjustReserve | node/reserve.go:20-60 | the proposer's lock and pending delta in place, as specified |
| Nodes.Node.HandleReserveAdjust | node/reserve.go:64-112 | the mirrored change in place, as specified |
| Nodes.Node.HandleReserveAccept | node/reserve.go:115-148 | the booked change in place, as specified |
| Nodes.Node.RetireReserve | node/contact.go:308-329 | on a closed contact only, the positive wallet returned to issuance, the supply smaller by exactly that |
| Nodes.Node.ProcessInbound | node/handlers.go:142-182 | gate, handler, seen id, position and stored reply in place, and the stored reply for a known id |
| Nodes.Node.Checkpoint | node/handlers.go:369-383 | the contact's op_seq, root and processed position as published, pending or active |
| Nodes.Node.ReconcilePeer | node/reconcile.go:25-81 | drops exactly the acknowledged envelopes and freezes exactly on a different root at an index both have |
| Nodes.Node.PushHost | node/handlers.go:56-82 | attempts go out in order from the cursor, stop at the first failure, and the cursor only passes delivered envelopes |
| Nodes.Node.PruneOutbox | node/reconcile.go:84-103 | exactly the acknowledged envelopes dropped, and counted |
| Nodes.Node.PollPeer | node/pull.go:17-33 | a fetched outbox processed in order, newly accepted envelopes counted |
| Delivery.ExactlyOnceInOrder | node/handlers.go:56-82 | whatever is lost, repeated or forgotten, the receiver handled exactly the first lastSeq envelopes, once each and in order, and the outbox still holds every unprocessed one |
| Delivery.CatchesUp | node/handlers.go:50-55 | from any state the channel invariant holds in, and any cursor, pushing delivers everything |
| Delivery.CatchesUpFromAnywhere | node/handlers.go:50-55 | whatever happened to a channel since it was fresh, some further pushes deliver everything |
| Delivery.PruneIsCut | node/reconcile.go:84-103 | pruning a contiguous outbox leaves the contiguous range after the acknowledged position |
| PoolPricing.PoolPrice | conformance/reference.go:165-181 | the payout is the largest that keeps the product from falling, leaves the destination reserve positive, and each error has its exact condition |
| PoolPricing.ProductNeverFalls | conformance/reference.go:165-181 | over any attempted trades in both directions reserves stay positive and their product never falls |
| PoolPricing.NoFreeCycle | conformance/reference.go:165-181 | if one reserve ends no higher, the other ends no lower |
| PoolPricing.SplittingNeverPaysMore | conformance/reference.go:165-181 | splitting a payment into any series never pays more in total |
| CanonicalJson.CanonicalInjective | conformance/reference.go:31-96 | equal encodings come from equal values, whatever order keys were inserted in |
| CanonicalJson.UniqueReading | conformance/reference.go:39-96 | a text has at most one value at its front, and the rest is determined |
| CanonicalJson.ProperBeginning | conformance/reference.go:39-96 | exactly when an encoding followed by more text is itself an encoding |
| CanonicalJson.PrintsAscending | conformance/reference.go:69-91 | an object is printed as its members, each once, comma by comma, with the keys ascending in code point order |
| CanonicalJson.PrintsInOrder | conformance/reference.go:59-68 | an array is printed element by element in its order |
| CanonicalJson.LiteralTexts | conformance/reference.go:41-48 | the texts of null, true, false and the empty values |
| CanonicalJson.IntegerTexts | conformance/reference.go:51-54 | an integer is its sign and decimal digits, read back as its value, without leading zeros |
| CanonicalJson.EscapeTexts | php/lp_core.php:79-123 | the texts of the escaped characters |
| CanonicalJson.ControlTexts | php/lp_core.php:79-123 | any other control character is a long escape whose two hex digits spell it |
| CanonicalJson.PlainTexts | php/lp_core.php:79-123 | every other character stands for itself |
| CanonicalJson.PrintString | php/lp_core.php:79-123 | the escape loop prints the specified text |
| CanonicalJson.SortedKeys | conformance/reference.go:70-74 | gathering and sorting the keys gives the one sorted listing |
| CanonicalJson.Print | php/lp_core.php:34-73 | the printer writes the specified text |
| StringOrder.ListingUnique | conformance/reference.go:74 | a set of keys has one sorted listing |
| StringOrder.LessIsCodePointOrder | conformance/reference.go:74 | the order of the keys: a proper prefix comes first, and otherwise the first difference decides by code point, and nothing else |
| Ledgers.SeriesKeepsBook | node/ledger/ledger.go:131-166 | after any appends that name each wallet once, balances are the fold of the log, wallets are not negative and the audit passes |
| LedgerTotals.SumIsAlwaysZero | node/ledger/ledger.go:131-166 | all balances together stay at zero |
| LedgerTotals.SupplyIsHeld | node/ledger/ledger.go:121-126 | the money supply is what members, funds and wallets hold |
| LedgerTotals.AppendGuards | node/ledger/ledger.go:142-149 | Append keeps wallets non-negative exactly for transactions whose net effect on a wallet covers its deepest entry |
| LedgerTotals.UnsafeIsTaken | node/ledger/ledger.go:142-149 | a transaction taking 5 twice from a wallet holding 5 is appended, the wallet ends at -5, and the audit refuses the log |
| LedgerIdentity.SameHeadSameLog | node/ledger/ledger.go:212-229 | two verified logs are identical exactly when their heads are |
| LedgerIdentity.PrefixVerifies | node/ledger/ledger.go:88-91 | every prefix of a verified log verifies |
| NodeLedger.Ledger.Append | node/ledger/ledger.go:131-166 | all or nothing, with the specified record and balances |
| NodeLedger.Ledger.Audit | node/ledger/ledger.go:170-203 | accepts exactly the verified logs |
| NodeLedger.Ledger.Load | node/ledger/ledger.go:91-102 | rebuilds the ledger exactly from a verified log and refuses any other |
| Supply.SupplyByType | node/ledger/ledger.go:36-54 | the supply is grants, dividends, seeds and adjustments less burns and retirements; other types never change it |
| Supply.SoundIsAccounted | node/ledger/ledger.go:121-126 | for a log of the operations' transactions the supply is at once what accounts hold and the sum of its records by type |
| NodeCommitSteps.LegsAreShaped | node/transfer.go:205-276 | the payment legs the handlers append have the shape the supply result asks for |
| SystemSafety.SupplyIsAccounted | node/ledger/ledger.go:36-54 | in every reachable state the money supply is both what members, funds and wallets hold and the volumes by type of the log |
| Dividends.UDBase | conformance/reference.go:209-218 | the base is the floor, and errors have their exact condition |
| Dividends.Community.BaseIsFloored | node/node.go:214-227 | whenever some weight is active and the formula has an answer the dividend is the larger of that answer and the genesis floor, and otherwise none |
| Dividends.EachGets | node/node.go:244-296 | each active member gets the floor of base times weight over 10^6, and nobody else anything |
| Dividends.EachShares | node/leave.go:65-89 | each active member gets the same largest share of the fund, and nobody else anything |
| Dividends.LeavingMoves | node/leave.go:36-58 | mode by mode where a positive balance goes: issuance, the redistribution fund, the other member, or nowhere |
| Dividends.DividendBounds | node/node.go:214-227 | a dividend grows the supply by at most supply times c over 10^6, and by more than that less one per active member and the total weight over 10^6 |
| Dividends.FundLeft | node/leave.go:65-89 | what the fund keeps of an equal split is less than one unit per active member |
| Dividends.Community.RunUD | node/node.go:233-296 | every account moves by its share and its part of the fund, batched or not, and the supply grows by the shares, which lies within the bounds of the dividend formula, floor included |
| Dividends.Community.ShareOut | node/leave.go:65-89 | the fund paid out in equal shares, less than one unit per active member kept, and the ledger's accounting sound |
| Dividends.Community.Leave | node/leave.go:25-61 | who may leave, where the balance goes in each mode, and nothing on refusal |
| SplitStore.JoinCut | gae/dsstore.go:157-160 | joining the chunks gives back the text |
| SplitStore.DSStore.Save | gae/dsstore.go:119-188 | with faults anywhere the database holds the new snapshot if the transaction took effect and the old one otherwise; it takes effect exactly if all batches land and no other version was stored |
| SplitStore.DSStore.Load | gae/dsstore.go:83-115 | reads exactly the stored snapshot and the version it stands for |
| SplitStore.LoadAfter | gae/dsstore.go:83-188 | after a writer's whole life, with any faults, a reader gets exactly the snapshot that took effect last; which saves took effect and which were reported is determined save by save |
| Persistence.EnterKeepsIndex | node/contact.go:143-156 | the index by host stays exact precisely for entries that are refused or bring a new id |
| Persistence.IndexAlwaysExact | node/persist.go:211-240 | in every state of a node's life, through entries, changes and restarts in any walk order, the index by host is exactly the contacts, one per host |
| Persistence.HostKeepsContact | node/contact.go:143-156 | a host that has a contact keeps that contact through everything that follows |
| Persistence.RestoreBringsBack | node/persist.go:86-252 | restoring a snapshot gives back every table in any walk order, except push cursors and the root of a contact that had none |
| Persistence.BackfillsPending | node/persist.go:227-232 | restoring changes exactly the pending contacts that were never restored before |
| Persistence.Registry.Restore | node/persist.go:211-260 | the loops rebuild the tables and the index |
| ConformanceVectors.Prices | conformance/vectors/pool_pricing.json:3-53 | the seven prices and errors |
| ConformanceVectors.Moves | conformance/vectors/state_machine.json:3-25 | the twenty-one moves and refusals of the state machine |
| ConformanceVectors.DividendVectors | conformance/vectors/ud_reference.json:3-25 | the bases and amounts of both dividends |
| ConformanceVectors.ChannelChain | conformance/vectors/channel_hash.json:2-14 | for any ids and amounts the chain over seed, transfer and adjustment hashes each root with the operation's exact text |
| ConformanceVectors.Verdicts | conformance/vectors/envelope_validation.json:7-157 | the verdicts ok, duplicate, stale-seq, too-old and future |
| ConformanceVectors.LedgerTranscript | conformance/vectors/ledger_transcript.json:2-199 | the five transactions leave the listed balances and supply |
| ConformanceVectors.LedgerNames | conformance/vectors/ledger_transcript.json:2-199 | accounts and types as they are written |

## Left out

- Systems.Act: one peer per node; other peers appear only as ledger activity that touches neither this peer's wallet nor a transfer record.
- Systems.Enabled: drawn identifiers are unused; forged ones and dishonest peers are not modelled, except that `ForkIsDetected` takes any peer history.
- ConformanceVectors.Verdicts: the unknown-key and bad-signature scenarios are not modelled.
- ConformanceVectors.ChannelChain: hashes are symbolic, so the texts are compared and not the hex values.
- Messages.Validate: signatures, key publication, version and addressee checks are taken as passed; `created` and `expires` are integers that always parse.
- Messages.Envelope: payloads are typed, so the malformed-payload answers are not modelled; `re`, notes, memos and the entry proofs of commit and receipt are dropped.
- Nodes.Node.RetireReserve: kept out of the protocol runs, because it empties the wallet behind the reserve counter.
- Nodes.Node.PushHost: the outcomes of the delivery attempts are a parameter, and the outbox does not change between the attempts of one call.
- Nodes.Node.Checkpoint: the published mirrored reserve and the ledger totals are left out; nothing compares them.
- SystemTheorems.ForkIsDetected: the compared roots leave out who paid, so histories that differ only there are not told apart, as in the code.
- SystemOpenings.PendingForever: a responder's configured seed may differ from message to message, so some continuation accepts.
- SystemDeadlocks.AdjustmentStaysLocked: whether a proposal that is still unprocessed will be taken depends on the peer's own locks; `AdjustmentNeverStale` says when it is.
- CanonicalJson.PrintString: walks characters, not UTF-8 bytes.
- SplitStore.DSStore.Load: reads of the database that fail are left out; they change nothing.
- Persistence.Registry.Restore: keys, members and peer keys are not rebuilt.
- Persistence.IndexAlwaysExact: entries that are not refused bring an unused id; `EnterKeepsIndex` says that a reused one breaks the index.
- Delivery.ExactlyOnceInOrder: push and pull only; a repeated reply sent directly can overtake and is covered by the safety results, not by this one. Ages are acceptable.
- CanonicalJson.Canonical: text is a sequence of characters, not UTF-8 bytes; control characters other than newline, return and tab take the long escape, as in the PHP printer; floats do not exist, so their error does not either.
- Ledgers.RecordHash: the link to the previous record is hashed beside the record's text instead of inside it.
- Dividends.Community.RunUD: weights are non-negative; the fund and the dividend share one transaction id.
- SplitStore.DSStore.Save: one live writer whose ledger only extends; the JSON of the snapshot is already split into ledger and rest.
- Persistence.RestoreBringsBack: keys, members and peer keys are tables like the others and are not repeated.
- Amounts have no upper limit: the 64-bit width and the 2^53 limit of the documentation are not enforced by the code either.
- Failed persists, whose result the node ignores.
- The payer's balance is only checked when a transfer starts (`NoOverdraft`), so what the member spends before the acceptance comes may leave it negative; nothing is claimed about that.
- HTTP, background workers, key rotation, identity documents, member lookup, transparency levels, dashboards and group hosting: plumbing around the atomic steps.
- The PHP federation code, a second implementation of the same machine; its gate runs before the store lock.
