# TARDIGRADE: verified model

This project models the protocols of TARDIGRADE atomic broadcast and proves their safety in Dafny.
`dafny verify dfyconfig.toml` checks all of it.

A round of TARDIGRADE collects encrypted transactions in pre-blocks, lets a committee certify a
pointer to a large pre-block, tries to agree on a block share with a synchronous block agreement,
and then runs an asynchronous common subset that is built from one reliable broadcast and one
binary agreement per node. The output is decrypted with the committee's shares, and its
transactions leave the buffer.

## How it is modelled

Each core file of the program has two parts here. The first is a class (or a method with a loop)
whose methods change the fields the way the program's handlers do; its contract says that the new
state and what is sent are those of a function of the old state. The second part puts nodes with
those functions into a network and proves what holds of every state that any run reaches. A run is
an arbitrary list of steps; a step that is not enabled changes nothing. The network is a set of
messages that only grows, so messages may be lost, reordered and repeated.

| part | program as methods | all runs |
|---|---|---|
| binary agreement | BinaryAgreement.dfy | BinaryAgreementSafety.dfy, BinaryAgreementProgress.dfy, BinaryAgreementDecision.dfy |
| committee reliable broadcast | Broadcast.dfy | BroadcastSafety.dfy, BroadcastProgress.dfy, BroadcastFeed.dfy, BroadcastOverride.dfy, BroadcastSender.dfy, BroadcastExit.dfy, BroadcastEarly.dfy |
| asynchronous common subset | CommonSubset.dfy | CommonSubsetSafety.dfy, CommonSubsetProgress.dfy, CommonSubsetCertificates.dfy, CommonSubsetReturn.dfy, CommonSubsetRun.dfy |
| block agreement | BlockAgreementNode.dfy over BlockAgreement.dfy | BlockAgreementSafety.dfy, BlockAgreementRounds.dfy, BlockAgreementProgress.dfy, BlockAgreementAdoption.dfy, BlockAgreementMessages.dfy, BlockAgreementRun.dfy |
| block pointers and pre-blocks | BlockPointers.dfy, Blocks.dfy | BlockPointersSafety.dfy, BlockPointersProgress.dfy, BlockPointersCommittee.dfy, BlockPointersSplit.dfy, BlockPointersHash.dfy, BlockPointersAdoption.dfy, BlockPointersRun.dfy |
| building a block | BlockConstruction.dfy | the same file |
| transaction buffer | TransactionBuffer.dfy | the same file |
| coin server | CommonCoin.dfy | the same file |

Quorums.dfy counts quorums, Certificates.dfy holds signature shares, Tables.dfy has channels and
map orders.

Assumptions, made once:

- The sender recorded in a message is authentic.
- Hashing is injective: a digest is the term it was computed from. A pre-block's hash skips empty
  slots and the size label, as the program's does, so equality of hashes means equality of full
  pre-blocks with one label only (`HashInjective`).
- A joined signature is a function of the document. Joining uses K of the shares that are there,
  half the committee plus one, or half the nodes plus one for the coin; which ones depends on the
  order in which a map is ranged over, and a key used twice gives bytes that are no signature.
  Nobody forges a share or a joined signature; faulty nodes may repeat shares they have seen.
- A message is a value, and a handler runs without interruption. An agreement instance is started
  once: testing whether it runs and starting it is one step.
- The order in which a Go map is ranged over is arbitrary, and is an argument of the methods.
- In binary agreement, broadcast, common subset and block pointers faulty nodes send anything, in
  their own names. In block agreement the faults are benign: a node follows the program until it
  crashes. All tickers tick together, and a notify reaches every running node that waits for one
  before that node's next tick; all other messages may be lost. In the opening phase an honest node
  sends all members the same large message.
- The common coin that binary agreement calls gives one bit per round. The coin server does so as
  long as every instance of the round is first joined with stored shares that all verify and are
  made with different keys (`CommonCoin.OneBitPerRound`), and only then (`CommonCoin.OneBit`); a faulty
  node can see to it that it does not (`CommonCoin.BadShareSplits`).
- Committee messages of the opening phase are never echoed, because the program's test for an unset
  pointer looks at its address. Pointers are formed from a strict majority of the committee, where
  the comment says tk+1.

## What the proofs found

- Binary agreement can block for ever. Only an AUX message looks at binValues, so a value that enters
  binValues after the round's last AUX wakes nobody. `RoundStuck` is a run of two nodes without any
  fault in which every message has been handled and no node can leave round 0; `WokenExactly` says
  exactly when a waiting node moves on, and `EstProgress` and `AuxProgress` when it is sure to. It can
  always decide, too: from any inputs and with any faulty nodes, some run has all honest nodes decide
  a value of t+1 honest inputs in the first round whose coin is that value (`DecidingRun`).
- The coin can split. A share that does not verify is stored all the same and joined with the next
  valid request, and the bit it gives replaces the one that late askers of other instances get.
  `BadShareSplits` is a run in which one bad share makes two honest nodes of one instance and round
  get different bits; `OneBit` and `Answered` say exactly which requests are safe and get served.
- The common subset can miss its last condition. Its comment asks for all broadcasts and agreements
  to have terminated, the code for exactly n-t of each. A node that has all outputs has committed in
  every run if and only if t = 0 or more than half of the broadcasts deliver one value
  (`CompletionExactly`). Otherwise a run in which all broadcasts come before the first agreement
  brings it everything and no commitment (`CompleteInVain`), and none ever follows (`NeverCommits`).
- Block agreement hangs on its first round. A vote always carries the current round, and a proposal
  of a later round is rejected unless its vote has t+1 commits, which only a notify hands out. So a
  block is put out, in whatever round, only if round 0 notifies it, and then it is, unless those who
  notify it crash (`RoundZeroExactly`). A proposal of a later round passes if and only if a notify came
  in an earlier round, because the notify's commits travel with every vote from then on
  (`AcceptedExactly`, `VotesCertified`). When the leader of round 0 takes no part nothing is put out
  in any of the kappa rounds (`FirstLeaderSilent`). Round 0 itself moves on: its proposals are
  rejected by nobody, t+1 commits make a notify, and without faults all nodes put out the input of
  node 0, and do so in each of the kappa rounds (`FaultFree`).
- One proposal in any other name than the leader's keeps a node from putting anything out, because
  forwarded proposals keep the leader's name and everything else is compared with its proposal
  (`OutputExactly`). A node that waits for a notify goes by the first, and an invalid one ends its round
  (`FirstNotifyDecides`).
- An honest leader's proposal is therefore not always valid; `ProposerValidatorMatch` says exactly
  when it is, and `UncertifiedProposal` shows the other case.
- Taking transactions out of the buffer skips the entry moved into the gap. `LeftExactly` says
  exactly when a duplicate stays, `BlockLeftExactly` over a block. With an empty transaction the loop
  can index past the live entries; `PanicsExactly`, `BlockPanicsExactly` and `BlockPanics` say exactly
  when.
- A pre-block has n - ta slots, but its handlers index it by sender. A node crashes if and only if it
  handles a block message of a node outside 0..n-ta-1 (`CrashesExactly`; `LastNodeCrashes` is a run),
  and a pre-block is ready if and only if each of the nodes 0..n-ta-1 was heard before any other
  node (`ReadyExactly`). So one silent node among them keeps everybody waiting (`OneSilentBlocks`),
  although n - ta messages of any nodes are meant to do.
- A reliable broadcast takes a VAL from whomever it comes. With an honest sender, its value is the only
  one put out in every run if and only if no node is faulty (`ValidityExactly`): any faulty node that
  is first has any value of its own put out by everybody (`SenderOverridden`). Just as exactly, all
  values put out are the same, size label and empty slots included (`OneValueExactly`), and nobody
  can be left waiting with every honest message handled (`RestsExactly`).
- The exit of the broadcast can hang after an honest member has vouched. A member relays only what it
  hears when it is done, so a faulty sender that gives its value to one member alone can have that
  member's message reach the others too early. All are done then, every honest message has been dealt
  with, and nobody returns (`EarlyWordHangs`); it can happen if and only if one message is not enough
  (`HangsExactly`). If the honest nodes are done first, one honest voucher suffices, whoever the sender
  is (`OneVoucherSuffices`).
- The committee stores a share under the name of whoever sends it, without looking at the key. A faulty
  node that repeats a member's share in its own name makes a join use one key twice. With a committee
  that follows the program all pointers are well-formed in every run if and only if nobody is faulty,
  or one share is a certificate, or nobody can sign (`WellFormedExactly`); one block hash per round is
  promised exactly when that holds or the first n-ta nodes are honest (`SameHashExactly`).
- For the same reason receivedHash and signature of the common subset are a matching pair in every run
  if and only if no member is faulty, or one share is a certificate, or the committee is too small for
  one (`PairsExactly`). A pair that does not match is not replaced by certificates that do
  (`PairStays`).
- A large block compares its number of plaintexts with a total computed from the width of the current
  row. The block is right if and only if that total is met at the last ciphertext and nowhere before
  (`LargeBlockExactly`); `UnevenSplit` is a block with one plaintext twice.

## Model

| member | source | states |
|---|---|---|
| BinaryAgreementSafety.Agreement | binaryagreement/binaryagreement.go:90-197 | in every run with n > 3t and t arbitrary nodes, honest nodes that decide, in whatever rounds, decide the same bit |
| BinaryAgreementSafety.EstsFollowDecision | binaryagreement/binaryagreement.go:179-192 | after a decision on v in round r, every honest est of every later round is v |
| BinaryAgreementSafety.DecisionLocks | binaryagreement/binaryagreement.go:171-192 | a decision on v in round r leaves nothing but v as est of round r+1 |
| BinaryAgreementSafety.UnanimousForever | binaryagreement/binaryagreement.go:160-192 | a round that all honest nodes begin with v is followed by such rounds only |
| BinaryAgreementSafety.SinglesAgree | binaryagreement/binaryagreement.go:130-136 | two honest nodes never leave a round with different single values |
| BinaryAgreementSafety.Justification | binaryagreement/binaryagreement.go:95-120 | every value in an honest binValues and every honest AUX value was, in that round, the est of an honest node, and is a bit |
| BinaryAgreementSafety.TallyJustified | binaryagreement/binaryagreement.go:101-105 | a value with t+1 ESTs was the est of an honest node in that round |
| BinaryAgreementSafety.BinJustified | binaryagreement/binaryagreement.go:107-112 | what 2t+1 ESTs put into binValues was the est of an honest node |
| BinaryAgreementSafety.EstIsBit | binaryagreement/binaryagreement.go:188-191 | est stays 0 or 1 when the honest inputs are |
| BinaryAgreementSafety.Validity | binaryagreement/binaryagreement.go:146-192 | if all honest nodes start with v, no honest node decides anything else |
| BinaryAgreementSafety.Uniformity | binaryagreement/binaryagreement.go:97-119 | once all honest ESTs of a round are handled by all honest nodes, all honest binValues of that round are equal |
| BinaryAgreementSafety.RunInv | binaryagreement/binaryagreement.go:74-197 | every step of every run keeps the tallies, queues, est history and one-EST-per-value records in order |
| BinaryAgreementProgress.EstProgress | binaryagreement/binaryagreement.go:160-168 | once all honest nodes have begun a round and their ESTs are handled, no honest node is blocked waiting for a value in binValues |
| BinaryAgreementProgress.AuxProgress | binaryagreement/binaryagreement.go:121-140 | an AUX after which a waiting node has all honest AUX messages, with their values in binValues, lets it go on |
| BinaryAgreementProgress.WokenExactly | binaryagreement/binaryagreement.go:130-139 | a node waiting for AUX messages moves on if and only if some AUX of the round finds enough support in binValues at the moment it is handled |
| BinaryAgreementProgress.RoundStuck | binaryagreement/binaryagreement.go:107-140 | a run without faults after which every message is handled, both bits are in all binValues, and no node can leave the round |
| BinaryAgreementProgress.RunQueued | binaryagreement/binaryagreement.go:112-119 | a value in binValues of a round still waiting for its ESTs is in the round's queue |
| BinaryAgreementDecision.DecidesExactly | binaryagreement/binaryagreement.go:171-196 | in every run the coin ends the protocol exactly when the node's values are that one bit, in the same round; otherwise the next round begins with the single value, or else the coin, as est |
| BinaryAgreementDecision.DecidingRun | binaryagreement/binaryagreement.go:146-197 | for any inputs of which t+1 honest ones are v, any faulty nodes and any coin, a run in which every honest node decides v in the first round whose coin is v |
| BinaryAgreementDecision.PopularInput | binaryagreement/binaryagreement.go:101-105 | among the honest inputs there is always such a v |
| BinaryAgreement.Agreement.constructor | binaryagreement/binaryagreement.go:74-88 | a node starts in round 0 with its input as est and empty tables |
| BinaryAgreement.Agreement.HandleEst | binaryagreement/binaryagreement.go:97-120 | an EST is counted per sender, echoed once at t+1, and at 2t+1 enters binValues and wakes the round loop |
| BinaryAgreement.Agreement.HandleAux | binaryagreement/binaryagreement.go:121-140 | an AUX is counted and triggers the notices {0}, {1}, {0,1} that its round then has support for |
| BinaryAgreement.Agreement.HandleMessage | binaryagreement/binaryagreement.go:90-144 | one turn of the handler is one step of the model |
| BinaryAgreement.Agreement.EchoEst | binaryagreement/binaryagreement.go:234-254 | a value is echoed at most once per round |
| BinaryAgreement.Agreement.SendEst | binaryagreement/binaryagreement.go:211-232 | the round's est is multicast unless that was done before |
| BinaryAgreement.Agreement.SendAux | binaryagreement/binaryagreement.go:163-168 | the first value put into binValues is multicast as AUX |
| BinaryAgreement.Agreement.TakeValues | binaryagreement/binaryagreement.go:170-171 | the first notice of the round gives the values to compare with the coin |
| BinaryAgreement.Agreement.Decide | binaryagreement/binaryagreement.go:174-196 | exactly a single value that equals the coin is decided, and the round stays; else it, or the coin, becomes the est of the next round |
| CommonCoin.Threshold | binaryagreement/commoncoin.go:159-178 | in every run nobody is answered before half the nodes plus one have asked for the instance, and only requests that were made are answered |
| CommonCoin.Answered | binaryagreement/commoncoin.go:172-204 | for any requests, at every time in every run a sender with a valid request has been answered exactly when a valid request of the instance has found n/2+1 senders stored, if and only if the instance's first join goes well |
| CommonCoin.ProperRipens | binaryagreement/commoncoin.go:177-178 | with own shares that is the case exactly when n/2+1 senders have asked |
| CommonCoin.OneBit | binaryagreement/commoncoin.go:162-203 | for any requests, all answers of a protocol round's coin carry the round's bit in every run, if and only if no instance of it is first joined with a stored share that does not verify or a key that is there twice |
| CommonCoin.OneBitPerRound | binaryagreement/commoncoin.go:189-203 | in every run whose instances of a round are joined well, all answers for the round carry one bit, across instances and protocol rounds, although the stored bit is shared |
| CommonCoin.BadShareSplits | binaryagreement/commoncoin.go:162-203 | a run of four nodes in which one share that does not verify makes two honest nodes of one instance and round get different bits |
| CommonCoin.ProperClean | binaryagreement/commoncoin.go:165-193 | where all requests of a slot carry the sender's own share every join goes well, whatever other slots get |
| CommonCoin.StoredAre | binaryagreement/commoncoin.go:159-162 | the table holds the last request of every sender that has asked, whatever its signature |
| CommonCoin.ProperJoins | binaryagreement/commoncoin.go:183-193 | own shares of enough senders join to the signature on the round number |
| CommonCoin.RunSlot | binaryagreement/commoncoin.go:131-206 | in every run a slot that is joined well keeps the round's bit, and all its answers have it |
| CommonCoin.RunKey | binaryagreement/commoncoin.go:131-206 | in every run an instance that is joined well is marked as served exactly from its first ripe request on, and its stored requests then are answered |
| CommonCoin.Coins.constructor | binaryagreement/commoncoin.go:131-134 | the server starts with empty tables |
| CommonCoin.Coins.Handle | binaryagreement/commoncoin.go:136-206 | one turn of the loop stores, verifies, joins, answers and marks as the model says |
| CommonCoin.Coins.AnswerAll | binaryagreement/commoncoin.go:199-201 | every stored request is answered with the new bit |
| BroadcastSafety.Agreement | broadcast/broadcast.go:112-143 | in every run with n > 3t and at most tk faulty members, any two honest outputs have one hash |
| BroadcastSender.FullOutputsAgree | broadcast/broadcast.go:209-226 | any two honest outputs have one pointer, and are the same value when both are full with one size label |
| BroadcastSender.OneValueExactly | broadcast/broadcast.go:130-138 | with an honest sender, all values put out are the same in every run, size label and empty slots included, if and only if no node is faulty |
| BroadcastSafety.OutputIsBroadcast | broadcast/broadcast.go:209-226 | tk+1 committee messages contain one of an honest member that is done with the hash of the value output |
| BroadcastSafety.DonesAgree | broadcast/broadcast.go:201-206 | two honest nodes that are done have the same broadcastValue |
| BroadcastSafety.ReadysAgree | broadcast/broadcast.go:165-199 | all honest READYs, first-hand or amplified, are for one value |
| BroadcastSafety.DoneIsReady | broadcast/broadcast.go:201-206 | a done node's value is that of an honest READY |
| BroadcastSafety.ReadyCause | broadcast/broadcast.go:175-199 | a READY is caused by n-t ECHOs or by t+1 READYs on the same value |
| BroadcastSafety.Totality | broadcast/broadcast.go:183-207 | once every honest READY is processed everywhere, one honest done node means all are done with the same value; done implies ready |
| BroadcastSafety.SenderValidity | broadcast/broadcast.go:156-163 | if every VAL around carries one value, no other value is output |
| BroadcastSafety.OutputHasVal | broadcast/broadcast.go:156-163 | what an honest node puts out came by a VAL of some node, be it the sender or not |
| BroadcastSender.ValidityExactly | broadcast/broadcast.go:156-163 | with an honest sender, and a committee of more than tk, nothing but the hash of its value is put out in any run, if and only if no node is faulty |
| BroadcastOverride.SenderOverridden | broadcast/broadcast.go:156-163 | in any setup with a faulty node, for any two values of one hash, a run in which the honest sender has sent its value, a node of choice puts out one of the two and all others the other |
| BroadcastSender.RunPure | broadcast/broadcast.go:107-143 | without faults every step keeps: only the sender's value is around, stored or put out |
| BroadcastSender.RestsExactly | broadcast/broadcast.go:112-143 | with an honest sender and more than tk honest members, a run can come to rest with all honest messages handled and no honest node returned, if and only if some node is faulty |
| BroadcastSender.AllWait | broadcast/broadcast.go:156-181 | in any setup with a faulty node, the run in which it shows every honest node a VAL of its own: all is handled and nobody is ready |
| BroadcastExit.VouchedExactly | broadcast/broadcast.go:112-136 | in every run an honest member has a committee message out if and only if it was done when it heard a member vouch for its value, or ended a turn done and with a value of its hash from the sender |
| BroadcastExit.RelaysNow | broadcast/broadcast.go:130-134 | in every run a done member that handles a valid committee message on its value has sent on that share in its own name |
| BroadcastExit.EnoughVouchers | broadcast/broadcast.go:209-226 | in every run, whoever the sender is, once more than tk honest members have vouched and are heard, every honest node has returned |
| BroadcastExit.OneVoucherSuffices | broadcast/broadcast.go:112-143 | whoever the sender is: if the honest nodes are done before the committee's messages on the value reach them, one honest voucher that is heard makes all honest members vouch and all honest nodes return |
| BroadcastExit.NotesAreBacked | broadcast/broadcast.go:300-327 | in every run what is noted of a member was sent by it, with a value of the hash and the dealer's signature on its number |
| BroadcastEarly.EarlyWordHangs | broadcast/broadcast.go:112-136 | with a faulty sender and tk >= 1, a run that comes to rest with all honest nodes done, every honest message dealt with, an honest voucher, and nobody returned |
| BroadcastEarly.HangsExactly | broadcast/broadcast.go:112-136 | with a faulty sender and an honest member, a run can come to rest so if and only if one message is not enough |
| BroadcastSafety.RunInv | broadcast/broadcast.go:90-144 | every step keeps one ECHO and one READY per node, quorums behind every READY, and vouching for the node's own broadcastValue only |
| BroadcastProgress.NeverStuck | broadcast/broadcast.go:112-143 | with an honest sender, more than tk honest members and one value presented as the sender's, until an honest node returns there is an honest message that some honest node has not dealt with |
| BroadcastProgress.QuietDone | broadcast/broadcast.go:156-207 | when every honest message has been dealt with, every honest node is done with the sender's value |
| BroadcastProgress.QuietVouched | broadcast/broadcast.go:113-115 | then every honest member has vouched for that value and every honest node has noted it |
| BroadcastProgress.RunActive | broadcast/broadcast.go:112-143 | every step keeps: an echoed VAL, thresholds that have fired, and vouching by done members that have the sender's value |
| Broadcast.ReliableBroadcast.constructor | broadcast/broadcast.go:90-105 | all flags and tables start empty |
| Broadcast.ReliableBroadcast.Start | broadcast/broadcast.go:107-110 | the sender, and only it, sends its value to the committee and its hash as VAL |
| Broadcast.ReliableBroadcast.HandleVal | broadcast/broadcast.go:156-163 | the first VAL, from whomever, is echoed |
| Broadcast.ReliableBroadcast.HandleEcho | broadcast/broadcast.go:165-181 | n-t ECHOs on a value make the node ready once |
| Broadcast.ReliableBroadcast.HandleReady | broadcast/broadcast.go:183-207 | t+1 READYs make the node ready, n-t make it done with the value |
| Broadcast.ReliableBroadcast.SendReady | broadcast/broadcast.go:269-281 | at most one READY is sent |
| Broadcast.ReliableBroadcast.HandleBracha | broadcast/broadcast.go:118-129 | Bracha messages count until the node is done |
| Broadcast.ReliableBroadcast.MulticastCommitteeMessage | broadcast/broadcast.go:283-298 | a member vouches only for a value with the broadcast hash |
| Broadcast.ReliableBroadcast.HandleCommitteeMessage | broadcast/broadcast.go:209-226 | tk+1 distinct members on a hash end the protocol with that message's value |
| Broadcast.ReliableBroadcast.TakeCommitteeMessage | broadcast/broadcast.go:130-138 | a done member sends the share of a committee message on its value in its own name before counting the message |
| Broadcast.ReliableBroadcast.Dispatch | broadcast/broadcast.go:117-142 | one message does what its handler says, and invalid committee messages nothing |
| Broadcast.ReliableBroadcast.Receive | broadcast/broadcast.go:112-143 | one turn of the receive loop, with the committee multicast at its top |
| CommonSubsetSafety.Agreement | commonsubset/commonsubset.go:181-207 | with fewer than 2K-kappa faulty members, all honest nodes that return have lists of one hash |
| CommonSubsetSafety.CertificatesAgree | commonsubset/commonsubset.go:385-412 | only one hash can be certified, since two certificates share an honest signer |
| CommonSubsetSafety.OneListPerMember | commonsubset/commonsubset.go:277-323 | an honest node signs at most one list |
| CommonSubsetSafety.OutputSound | commonsubset/commonsubset.go:284-321 | a returned list is one value of n-t broadcasts, one value of a majority of at least n-t, or the values of exactly n-t broadcasts in index order; no nil share is hashed |
| CommonSubsetSafety.StartUpInvariant | commonsubset/commonsubset.go:120-177 | until n-t agreements output 1 an agreement runs only where the local broadcast has output; n-t ones mean n-t broadcast outputs; under C3 the two sets are equal |
| CommonSubsetSafety.CThreeDomain | commonsubset/commonsubset.go:270-273 | when C3 fires, the instances with output 1 are exactly those whose broadcast output, n-t of them |
| CommonSubsetSafety.CollectInOrder | commonsubset/commonsubset.go:311-316 | the C3 list has the broadcast values of s in index order |
| CommonSubsetSafety.COneCompatible | commonsubset/commonsubset.go:284-306 | in every run with n > 3t, where each broadcast delivers values of one hash, a commitment by C1 and any by C1 or C2, at whatever node and time, have one hash |
| CommonSubsetSafety.SoundCompatible | commonsubset/commonsubset.go:213-254 | the same for any two commitments that meet what the conditions promise |
| CommonSubsetSafety.MajorityIs | commonsubset/commonsubset.go:247-253 | a value of n-t broadcasts is the only possible majority among n-t of them |
| CommonSubsetSafety.COneFinds | commonsubset/commonsubset.go:224-235 | C1 finds a value exactly when there is one, in every map order |
| CommonSubsetSafety.CTwoFinds | commonsubset/commonsubset.go:256-268 | C2 finds a value exactly when there is one, in every map order |
| CommonSubsetSafety.OrderIrrelevant | commonsubset/commonsubset.go:224-268 | neither the verdict of C1 and C2 nor the chosen hash depends on the map order |
| CommonSubsetSafety.JoinCertifiable | commonsubset/commonsubset.go:385-400 | a signature joined from stored shares stands for K distinct members |
| CommonSubsetSafety.RunInv | commonsubset/commonsubset.go:93-209 | every step keeps: a receivedHash with enough signers whenever there is a signature, one commitment per node, and the start-up invariant |
| CommonSubsetCertificates.CertifiedExactly | commonsubset/commonsubset.go:385-435 | in a run the signature of every honest node verifies its receivedHash at all times, if and only if no join uses a key twice |
| CommonSubsetCertificates.PairsExactly | commonsubset/commonsubset.go:373-414 | whatever the broadcasts deliver, it does so in every run if and only if no member is faulty, or one share is a certificate, or the committee is too small to make one up |
| CommonSubsetCertificates.SpoilRun | commonsubset/commonsubset.go:437-465 | in any other setup, a run in which a faulty member repeats a share and an honest member ends with a signature that does not verify its receivedHash |
| CommonSubsetCertificates.PairStays | commonsubset/commonsubset.go:182-193 | a pair, matching or not, stays as it is in every run that goes on without a commit message for its node, whatever certificates come |
| CommonSubsetCertificates.RunOwn | commonsubset/commonsubset.go:286-293 | in every run shares stored under the name of an honest member are its own |
| CommonSubsetProgress.CommitsExactly | commonsubset/commonsubset.go:213-323 | the event handler commits exactly when n-t broadcasts have brought one value, or all agreements are in and most of the broadcasts that are have brought one value, or C3 holds; else it does nothing |
| CommonSubsetProgress.RunSettled | commonsubset/commonsubset.go:120-154 | in every run a node that has not committed has no condition that holds |
| CommonSubsetProgress.CompleteCommits | commonsubset/commonsubset.go:237-268 | with t = 0 or a value that more than half of the broadcasts deliver, a node with all broadcast and agreement outputs has committed in every run |
| CommonSubsetProgress.CompleteInVain | commonsubset/commonsubset.go:270-273 | otherwise some run brings a node all broadcasts and then all agreements, and it has not committed |
| CommonSubsetProgress.CompletionExactly | commonsubset/commonsubset.go:213-323 | a node with all outputs has committed in every run if and only if t = 0 or more than half of the broadcasts deliver one value |
| CommonSubsetProgress.NeverCommits | commonsubset/commonsubset.go:270-323 | a node that has all outputs and has not committed never commits or returns, whatever follows |
| CommonSubsetProgress.MissedForever | commonsubset/commonsubset.go:270-273 | when no value is delivered by more than half of n-t broadcasts, a node with more than n-t broadcast or agreement outputs and no commitment never commits |
| CommonSubsetReturn.StartsExactly | commonsubset/commonsubset.go:120-177 | in every run an agreement started with 1 has its broadcast in, one started with 0 came after n-t ones, there is no other, and those that are due run once rbcDone and startAba have been read |
| CommonSubsetReturn.ReturnsExactly | commonsubset/commonsubset.go:178-207 | in every run a node has returned if and only if it has taken its list and has a certificate for the list's hash, and it returns that list; until then its commitment waits in acsOut |
| CommonSubsetReturn.TellsExactly | commonsubset/commonsubset.go:277-347 | in every run a committed honest member has sent its share on its list, and a node with a certificate has sent it on |
| CommonSubsetReturn.CertificateExactly | commonsubset/commonsubset.go:373-465 | in every run an honest node has a certificate if and only if it has handled one that verifies, or valid shares on one hash of at least tk+1 members and as many as a join needs |
| CommonSubsetReturn.RunGoes | commonsubset/commonsubset.go:93-209 | every step keeps what the four above are read from |
| CommonSubsetRun.AllReturn | commonsubset/commonsubset.go:93-209 | with enough honest members for a certificate, whoever else is faulty and whatever the broadcasts deliver, a run after which all honest nodes have returned one list |
| CommonSubset.CountHolders | commonsubset/commonsubset.go:214-222 | the loop counts the broadcasts whose value has the hash, in any map order |
| CommonSubset.FindCOne | commonsubset/commonsubset.go:224-235 | the loop over the map returns the first value for which C1 holds |
| CommonSubset.FindCTwo | commonsubset/commonsubset.go:237-268 | the loop over the map returns the first value for which C2 holds |
| CommonSubset.Subset.constructor | commonsubset/commonsubset.go:93-109 | all tables start empty |
| CommonSubset.Subset.CommitTo | commonsubset/commonsubset.go:286-293 | a commitment goes to acsOut and, from a member, out with a share on its hash |
| CommonSubset.Subset.HandleEvent | commonsubset/commonsubset.go:275-323 | the first of C1, C2, C3 that holds is committed to, once |
| CommonSubset.Subset.HandleRbcOutput | commonsubset/commonsubset.go:148-154 | a broadcast output is stored, queued and followed by the event handler |
| CommonSubset.Subset.RecordAba | commonsubset/commonsubset.go:128-138 | an agreement output is recorded; the (n-t)-th and every further 1 asks for the remaining agreements |
| CommonSubset.Subset.HandleAbaOutput | commonsubset/commonsubset.go:120-140 | an agreement output is recorded and followed by the event handler |
| CommonSubset.Subset.TakeRbcDone | commonsubset/commonsubset.go:159-166 | the agreement of a finished broadcast is started with 1 unless it runs |
| CommonSubset.Subset.StartRemaining | commonsubset/commonsubset.go:171-176 | every agreement that does not run is started with 0 |
| CommonSubset.Subset.TakeStartAba | commonsubset/commonsubset.go:168-177 | one request to start the remaining agreements is served |
| CommonSubset.Subset.TakeAcsOut | commonsubset/commonsubset.go:178-179 | the committed list becomes the result to certify |
| CommonSubset.Subset.HandleCommit | commonsubset/commonsubset.go:371-414 | a valid commit's share is stored, and joined when tk+1 are there and the scheme allows |
| CommonSubset.Subset.HandleSignatureMessage | commonsubset/commonsubset.go:182-193 | a valid joined signature is adopted and passed on unless there is one |
| CommonSubset.Subset.TryTerminate | commonsubset/commonsubset.go:467-480 | the node returns exactly when its own list is the certified one |
| CommonSubset.Subset.Receive | commonsubset/commonsubset.go:180-207 | one turn of the main loop on a message |
| BlockAgreementSafety.Agreement | blockagreement/blockagreement.go:125-149 | in every benign run with timely notifies, any two block shares ever put out, in any rounds, are equal |
| BlockAgreementSafety.GradeTwoLocks | blockagreement/gradedconsensus.go:60-126 | after a notify (a grade 2) on B, every later vote, proposal, commit and notify is on B, and so is every running node past that round |
| BlockAgreementSafety.OneBlock | blockagreement/propose.go:145-206 | all accepted blocks of a round are the same, and then no receiver rejects the round's proposal |
| BlockAgreementSafety.NotifiesAgree | blockagreement/gradedconsensus.go:202-229 | notifies of all rounds carry one block |
| BlockAgreementSafety.NotifyValid | blockagreement/gradedconsensus.go:236-274 | every notify of a benign run passes isValidNotify in its round |
| BlockAgreementSafety.PickedVote | blockagreement/propose.go:118-143 | the vote a leader proposes is one it was sent, and respects the lock |
| BlockAgreementSafety.GroupIs | blockagreement/gradedconsensus.go:186-200 | the commits of a group come from distinct senders |
| BlockAgreementSafety.RunInv | blockagreement/blockagreement.go:106-171 | every step keeps the tick counts, what nodes hold, one proposal per round, and the lock |
| BlockAgreementRounds.TickDiscipline | blockagreement/blockagreement.go:59-73 | proposals are handled right after tick 6r+2, the propose protocol never gives up, and a running node has consumed fewer ticks than its ticker emits |
| BlockAgreementRounds.RoundStart | blockagreement/blockagreement.go:125-148 | round k starts with tick 6k-1 or 6k consumed |
| BlockAgreementRounds.OneBlockPerRound | blockagreement/gradedconsensus.go:145-234 | all commits and notifies of a round, and so all its results of grade 1 and 2, carry one block share |
| BlockAgreementRounds.OneLargeGroup | blockagreement/gradedconsensus.go:202-204 | at most one group of commits reaches t+1, so the order of ranging over the groups does not matter |
| BlockAgreementRounds.NotifiesAdopted | blockagreement/gradedconsensus.go:109-122 | in every run whoever reads a notify takes over its block and its commits, puts nothing out, and is at the end of the round; nothing else changes |
| BlockAgreementRounds.GradeZeroExcludesTwo | blockagreement/gradedconsensus.go:96-108 | when a running node leaves a round with grade 0, no notify of that round is sent before or after |
| BlockAgreementRounds.RoundZeroDecides | blockagreement/blockagreement.go:152-163 | only the block that round 0 notifies is ever put out |
| BlockAgreementRounds.FirstLeaderSilent | blockagreement/propose.go:255-271 | when the leader of round 0 takes no part, no block is ever put out in any round |
| BlockAgreementRounds.EarlierNotify | blockagreement/propose.go:260-271 | a notify of a later round has an earlier one before it |
| BlockAgreementAdoption.GradeTwoResult | blockagreement/blockagreement.go:132-144 | in every run a node that has notified takes over its own block and commits at the next tick and puts the block out; nothing else changes |
| BlockAgreementAdoption.GradeZeroResult | blockagreement/gradedconsensus.go:96-108 | in every run a node that waits for a notify in vain keeps its block and its commits |
| BlockAgreementAdoption.VotesCertified | blockagreement/blockagreement.go:130-136 | after a notify on B, in every run, every vote of a later round is for B and carries commits of t+1 nodes on B from earlier rounds, and so does every running node past the round |
| BlockAgreementAdoption.AcceptedExactly | blockagreement/propose.go:230-287 | in every run a proposal is valid at every reader if and only if it is of round 0 or there was a notify in an earlier round |
| BlockAgreementMessages.VotesExactly | blockagreement/propose.go:98-116 | a leader that has handled any messages has the first valid vote of every sender and no other, and has crashed if and only if a signed vote among them makes the check panic |
| BlockAgreementMessages.CommitsExactly | blockagreement/gradedconsensus.go:145-165 | a node that has handled any messages has the first valid commit of every sender and no other |
| BlockAgreementMessages.ProposalsExactly | blockagreement/propose.go:146-183 | whatever proposals come, the first in the leader's name decides: if it is valid it is kept and sent on once, if not the propose protocol ends without output or the check panics |
| BlockAgreementMessages.OutputExactly | blockagreement/propose.go:184-205 | the propose protocol puts out a block if and only if the first proposal in the leader's name is valid and for that block, and no proposal in any other name has come |
| BlockAgreementMessages.FirstNotifyDecides | blockagreement/gradedconsensus.go:94-124 | a node that waits for a notify goes by the first it reads: a valid one is adopted with its commits, an invalid one ends the round with what the node has |
| BlockAgreementMessages.WaitsExactly | blockagreement/propose.go:66-77 | a waiting node reads proposals from tick 2 of the round on, gets stuck if it was past it, and waits on otherwise |
| BlockAgreementProgress.NotifierPutsOut | blockagreement/gradedconsensus.go:96-108 | in every run whoever sends a notify, in whatever round, puts its block out by the end of the round unless it crashes |
| BlockAgreementProgress.RoundZeroExactly | blockagreement/blockagreement.go:125-163 | a block is put out, in whatever round, if and only if round 0 notifies it, once its notifiers are past the round and have not crashed |
| BlockAgreementProgress.RunOwes | blockagreement/gradedconsensus.go:202-229 | every step keeps: the sender of a notify is down, waits with grade 2 on its block, or has put it out |
| BlockAgreementProgress.FirstProposalsAccepted | blockagreement/propose.go:224-271 | in every run nobody rejects a proposal of round 0 |
| BlockAgreementProgress.FirstLeaderProposes | blockagreement/propose.go:118-143 | with t+1 votes the leader of round 0 makes, at its next tick, a proposal that every receiver accepts |
| BlockAgreementProgress.FirstProposalAdopted | blockagreement/propose.go:152-183 | whoever reads a proposal of round 0 has it as the leader's and forwarded nothing else, so it commits to its block |
| BlockAgreementProgress.EnoughCommitsNotify | blockagreement/gradedconsensus.go:167-234 | in every run and round a node with t+1 commits sends a notify at its next tick, on the one block of all of them |
| BlockAgreementRun.FaultFree | blockagreement/blockagreement.go:106-150 | without faults, for any n > 2t, inputs that pass the checks and k up to kappa, a run in which every node puts out the input of node 0 in each of the first k rounds |
| BlockAgreementRun.PickedGroup | blockagreement/gradedconsensus.go:167-204 | with all commits on one block the group picked is large and on it, whatever the map order |
| BlockAgreement.MaxKeyExists | blockagreement/propose.go:213-222 | there is a vote of the highest round and, among those, the lowest index |
| BlockAgreement.MaxKeyUnique | blockagreement/propose.go:213-222 | there is only one such vote |
| BlockAgreementNode.FindMaxVote | blockagreement/propose.go:213-222 | the loop returns the vote of the highest round and lowest index for every map order |
| BlockAgreementNode.ProposerValidatorMatch | blockagreement/propose.go:224-286 | a leader's proposal from t+1 checked votes is valid at every receiver of the round exactly when the chosen vote meets the round-0 rule or has t+1 commits from no later round |
| BlockAgreementNode.UncertifiedProposal | blockagreement/propose.go:260-264 | in a later round a proposal from votes without commits is rejected |
| BlockAgreementNode.AcceptedShare | blockagreement/propose.go:288-309 | exactly the block shares with n-t entries, no empty slot, and in slot i a message signed with key i+1 are accepted |
| BlockAgreementNode.IsValidBlockShare | blockagreement/propose.go:288-309 | the loop over the slots accepts, rejects or panics as the check says |
| BlockAgreementNode.IsValidProposal | blockagreement/propose.go:224-286 | the loops over votes and commits compute the validity of a proposal, in any map order |
| BlockAgreementNode.MeetsVoteRule | blockagreement/propose.go:254-271 | the round-0 rule, or t+1 commits from no later round |
| BlockAgreementNode.IsValidNotify | blockagreement/gradedconsensus.go:236-274 | the loop accepts exactly n-t quality, current commits, one block and t+1 senders |
| BlockAgreementNode.Distinct | blockagreement/gradedconsensus.go:249-261 | the loop collects the distinct senders and blocks, or finds a commit from an earlier round |
| BlockAgreementNode.GroupAppend | blockagreement/gradedconsensus.go:187-200 | a commit joins the group of its block and no other |
| BlockAgreementNode.Agreement.constructor | blockagreement/blockagreement.go:74-104 | a node starts with its input, and votes for it in round 0 |
| BlockAgreementNode.Agreement.StartRound | blockagreement/blockagreement.go:125-131 | a round starts with a vote to its leader, who collects; after kappa rounds the node is done |
| BlockAgreementNode.Agreement.HandleVote | blockagreement/propose.go:97-116 | the first valid vote of a sender is kept |
| BlockAgreementNode.Agreement.ProposeVote | blockagreement/propose.go:118-143 | with t+1 votes the maximal one is proposed |
| BlockAgreementNode.Agreement.HandleProposal | blockagreement/propose.go:152-183 | the leader's first valid proposal is forwarded, an invalid one ends the propose protocol, others are kept |
| BlockAgreementNode.Agreement.FindOutput | blockagreement/propose.go:184-203 | the output is the leader's block unless a forwarded proposal differs |
| BlockAgreementNode.Agreement.CommitTo | blockagreement/gradedconsensus.go:73-82 | an output is committed to, and commits are collected afresh |
| BlockAgreementNode.Agreement.HandleCommit | blockagreement/gradedconsensus.go:151-163 | the first valid commit of a sender is kept |
| BlockAgreementNode.Agreement.SplitCommits | blockagreement/gradedconsensus.go:186-200 | the loop groups the received commits by block |
| BlockAgreementNode.Agreement.FindSubset | blockagreement/gradedconsensus.go:167-234 | a group of t+1 is notified whenever there is one, whatever the order of the groups |
| BlockAgreementNode.Agreement.HandleNotify | blockagreement/gradedconsensus.go:109-122 | a valid notify gives grade 1 on its block, an invalid one grade 0 |
| BlockAgreementNode.Agreement.TakeResult | blockagreement/blockagreement.go:132-144 | a grade above 0 hands over the block and its commits, grade 2 puts the block out, and the round counter moves |
| BlockAgreementNode.Agreement.TickPropose | blockagreement/propose.go:54-78 | what a tick does while the propose protocol runs |
| BlockAgreementNode.Agreement.TickGraded | blockagreement/gradedconsensus.go:81-108 | what a tick does during graded consensus and at the end of a round |
| BlockAgreementNode.Agreement.Receive | blockagreement/blockagreement.go:108-123 | what a message does to the node that reads its channel |
| BlockPointersSafety.UniquePointer | tardigrade/tardigrade.go:740-857 | with fewer than 2K-kappa faulty members, all well-formed pointers held or sent in a round are equal |
| BlockPointersCommittee.SamePointer | tardigrade/tardigrade.go:740-857 | with a committee that follows the program, in every run whose joins use different keys every pointer any honest node holds is well-formed and all are equal |
| BlockPointersCommittee.WellExactly | tardigrade/tardigrade.go:769-773 | in a run every pointer any honest node ever holds is well-formed if and only if no join uses a key twice |
| BlockPointersCommittee.OwnApart | tardigrade/tardigrade.go:822-840 | shares of distinct senders under their own keys have no key twice, so they join to a well-formed pointer |
| BlockPointersSplit.WellFormedExactly | tardigrade/tardigrade.go:776-857 | with a committee that follows the program, all pointers of honest nodes are well-formed in every run if and only if nobody is faulty, or one share is a certificate, or nobody can sign |
| BlockPointersSplit.SplitRun | tardigrade/tardigrade.go:822-856 | in any other setup, a run in which a faulty node repeats a member's share: two honest members hold pointers to the versions they signed, one of them with bytes that are no signature |
| BlockPointersHash.SameHashExactly | tardigrade/tardigrade.go:740-857 | with a committee that follows the program, all pointers formed or adopted by honest nodes have one block hash in every run, if and only if the above holds or the first n-ta nodes are honest |
| BlockPointersHash.SameSlots | tardigrade/tardigrade.go:692-702 | when the first n-ta nodes are honest, all honest members that are ready have the same large pre-block |
| BlockPointersHash.RunTraced | tardigrade/tardigrade.go:740-774 | every pointer that an honest node holds carries a hash that an honest member has signed |
| BlockPointersAdoption.OutsiderHolds | tardigrade/tardigrade.go:740-774 | in every run an honest node outside the committee holds a pointer if and only if it has handled one that a member sent, and it is the first of these |
| BlockPointersAdoption.MemberHolds | tardigrade/tardigrade.go:740-857 | in every run an honest member holds a pointer if and only if it has handled a well-formed one or valid shares on one hash from a majority's number of senders; without such shares it is the first well-formed one, with them one to a hash that has them |
| BlockPointersAdoption.MemberSends | tardigrade/tardigrade.go:847-856 | in every run an honest member has sent the pointer it holds |
| BlockPointersAdoption.NoticesExactly | tardigrade/tardigrade.go:685-688 | in every run readyChan gets one notice, when the small pre-block is ready, and ptrChan has one exactly when there is a pointer |
| BlockPointersRun.AllHoldOne | tardigrade/tardigrade.go:674-857 | with enough honest members for a certificate, whoever else is faulty, a run after which all honest nodes hold one well-formed pointer |
| Certificates.JoinsExactly | tardigrade/tardigrade.go:826-840 | a join gives the signature in every map order exactly when it uses one share only or no key is there twice |
| BlockPointersSafety.OneHash | tardigrade/tardigrade.go:703-717 | two hashes with enough signers share an honest member, who signs one hash |
| BlockPointersSafety.JoinBacked | tardigrade/tardigrade.go:826-840 | a signature joined from stored shares has a majority of members behind it |
| BlockPointersSafety.ReadyIsFull | tardigrade/tardigrade.go:685-688 | a ready pre-block has n - ta messages and no gap |
| BlockPointersProgress.CrashesExactly | tardigrade/tardigrade.go:674-684 | in every run a node has crashed if and only if it has handled a block message of a node outside 0..n-ta-1 |
| BlockPointersProgress.UpReadyExactly | tardigrade/tardigrade.go:674-703 | in every run a node that is up has its small or large pre-block ready if and only if ta < n and it has handled a message for it of every node 0..n-ta-1 |
| BlockPointersProgress.ReadyExactly | tardigrade/tardigrade.go:674-703 | for any messages in any order, a pre-block is ready if and only if ta < n and each of the nodes 0..n-ta-1 was heard before the first message of another node |
| BlockPointersProgress.Handled | tardigrade/tardigrade.go:674-738 | until a fatal message, exactly the slots of the nodes heard are filled, and none after |
| BlockPointersProgress.OneSilentBlocks | tardigrade/tardigrade.go:168-171 | one silent node among the first n-ta keeps every honest node from ever having a pre-block ready |
| BlockPointersProgress.LastNodeCrashes | tardigrade/tardigrade.go:674-684 | a run of two steps in which a message of one of the last ta nodes crashes an honest node |
| BlockPointersProgress.FirstNodesSuffice | tardigrade/tardigrade.go:674-703 | the first n-ta nodes are enough: some run makes a pre-block ready |
| BlockPointersSafety.OwnKeeps | tardigrade/tardigrade.go:701-723 | the pre-block a member has signed never changes afterwards, and it signs no other |
| BlockPointersSafety.RunInv | tardigrade/tardigrade.go:182-208 | every step keeps signers behind every joined signature and one signed pre-block per member |
| BlockPointers.Round.constructor | tardigrade/tardigrade.go:168-185 | both pre-blocks start with n - ta empty slots |
| BlockPointers.Round.HandleSmallBlockMessage | tardigrade/tardigrade.go:674-690 | the first message of a sender fills its slot, and n - ta of them make the small pre-block ready once |
| BlockPointers.Round.HandleLargeBlockMessage | tardigrade/tardigrade.go:692-738 | the first message of a sender fills its slot, and the ready large pre-block is signed and sent once |
| BlockPointers.Round.HandlePointerMessage | tardigrade/tardigrade.go:740-774 | without a pointer, a member adopts and passes on a well-formed one, another node adopts what a member sends |
| BlockPointers.Round.HandleCommitteeMessage | tardigrade/tardigrade.go:776-857 | a member stores valid shares and forms a pointer from a majority, again with every further message; a pointer it forms it sends |
| BlockPointers.Round.Receive | tardigrade/tardigrade.go:186-206 | the listener hands large messages to members' large handler and all other block messages to the small one |
| BlockConstruction.BuildsExactly | tardigrade/tardigrade.go:357-446 | from K members on, whoever they are and in whatever order they answer, the block is every plaintext once in row-major order if and only if the count meets the row's target at the last usable cell and only there |
| BlockConstruction.BuildsRowMajor | tardigrade/tardigrade.go:357-446 | so it is when every row counts the same total |
| BlockConstruction.LargeBlockExactly | tardigrade/tardigrade.go:372-403 | for a full large pre-block of m messages that split into any numbers of ciphertexts, the block is right if and only if a ciphertext whose number is m times the width of its row is the last one and the last is such |
| BlockConstruction.UnevenSplit | tardigrade/tardigrade.go:397-403 | two messages of two and one ciphertexts: the construction waits after the K-th vector and then ends with one plaintext twice |
| BlockConstruction.WaitsForMembers | tardigrade/tardigrade.go:387-400 | with fewer than K vectors there is no plaintext yet |
| BlockConstruction.StopsAtFirstHit | tardigrade/tardigrade.go:387-430 | inside the K-th vector the plaintexts come out one by one, and the construction ends at the first cell at which their number meets the row's target |
| BlockConstruction.SameBlock | tardigrade/tardigrade.go:357-446 | any two nodes build the same block, whoever answers them first, whenever the count is right |
| BlockConstruction.HeldCombines | tardigrade/tardigrade.go:387-388 | K shares of distinct members on one ciphertext give its plaintext |
| BlockConstruction.LargeBlockFits | tardigrade/tardigrade.go:372-403 | one full pre-block whose messages split into equally many ciphertexts meets the counting rule |
| BlockConstruction.SmallBlockFits | tardigrade/tardigrade.go:404-433 | small pre-blocks with nil shares exactly at their empty slots meet the counting rule |
| BlockConstruction.TableHolds | tardigrade/tardigrade.go:380-433 | whatever cells arrive, as long as the construction waits the table holds for every position all shares that have come, nil ones only for a large block |
| BlockConstruction.NilSpoils | tardigrade/tardigrade.go:387-403 | one nil share at a position of a large block, and nothing comes out of that position |
| BlockConstruction.PanicsExactly | tardigrade/tardigrade.go:372-411 | the construction indexes outside its table if and only if such a cell comes before it has ended |
| BlockConstruction.GridCounts | tardigrade/tardigrade.go:361-365 | the number of plaintexts is the total quality of the pre-blocks |
| BlockConstruction.TextsRowMajor | tardigrade/tardigrade.go:380-433 | visiting the cells in loop order gives the plaintexts in row-major order |
| BlockConstruction.CountTransactions | tardigrade/tardigrade.go:361-365 | the loop sums up the quality of the pre-blocks |
| BlockConstruction.AddShare | tardigrade/tardigrade.go:411-430 | one share fills its cell of the table and is combined when K are there |
| BlockConstruction.ConstructBlock | tardigrade/tardigrade.go:357-446 | the nested loops over vectors, rows and cells do what handling the cells one after the other does |
| TransactionBuffer.BlockConserves | tardigrade/tardigrade.go:336-346 | the old buffer is the new one plus what was removed, as many entries as it got shorter, each of them in the block |
| TransactionBuffer.SweepConserves | tardigrade/tardigrade.go:337-345 | ranging for one transaction loses copies of it only, one for each removal |
| TransactionBuffer.BlockRemoved | tardigrade/tardigrade.go:336-346 | for a buffer without duplicates the result is exactly the old buffer minus the block |
| TransactionBuffer.BlockProgress | tardigrade/tardigrade.go:336-346 | with duplicates, every transaction of the block that is in the buffer loses a copy |
| TransactionBuffer.LeftExactly | tardigrade/tardigrade.go:337-345 | with c copies in the buffer, none stays if and only if none of the last c-1 entries is a copy |
| TransactionBuffer.BlockLeftExactly | tardigrade/tardigrade.go:336-346 | over a block, no copy of a transaction stays if and only if none of the last c-1 entries is one when the block names it for the last time |
| TransactionBuffer.CopyStays | tardigrade/tardigrade.go:321-323 | of two copies at the end one stays |
| TransactionBuffer.PanicsExactly | tardigrade/tardigrade.go:325-331 | ranging indexes past the live entries if and only if the transaction is empty and an empty one sits before the last entry |
| TransactionBuffer.BlockPanicsExactly | tardigrade/tardigrade.go:336-346 | a block panics if and only if an empty transaction of it finds another before the last entry of what is left by then |
| TransactionBuffer.BlockPanics | tardigrade/tardigrade.go:336-346 | unless the buffer has exactly one empty transaction, a block panics if and only if the buffer has two or more and the block has one |
| TransactionBuffer.NoPanic | tardigrade/tardigrade.go:336-346 | a block without empty transactions never does |
| TransactionBuffer.Buffer.constructor | tardigrade/tardigrade.go:923-932 | a buffer that holds the given transactions |
| TransactionBuffer.Buffer.Remove | tardigrade/tardigrade.go:325-331 | the last entry moves to the index and nil is left behind |
| TransactionBuffer.Buffer.TakeOut | tardigrade/tardigrade.go:337-345 | ranging over the old length while the buffer shrinks |
| TransactionBuffer.Buffer.SetBlock | tardigrade/tardigrade.go:321-355 | takes a block out in place, counts the removals and keeps the block of the round |
| Blocks.PreBlockBuffer.constructor | utils/block.go:105-114 | a pre-block with n empty slots |
| Blocks.PreBlockBuffer.AddMessage | utils/block.go:56-61 | the first message for a node stays; filling a slot raises the quality by one |
| Blocks.PreBlockBuffer.CountQuality | utils/block.go:63-71 | the loop counts the slots that are not nil |
| Blocks.QualityFull | utils/block.go:63-71 | the quality is the length exactly when no slot is nil |
| Blocks.HashInjective | utils/block.go:73-103 | equal hashes mean equal pointers, and equal pre-blocks when both are full with one label |

## Left out

- Cryptography: RSA, Paillier, SHA-256 and the threshold libraries are symbolic; combining shares on different ciphertexts or repeated shares gives no plaintext, and at the coin joining a share that does not verify gives any bytes or none. The threshold libraries are not part of this model.
- Networking: TCP, channel capacities, gob coding, the routing of messages to rounds and instances, nil fields in messages.
- Time: real time, latency figures, the interleaving inside a handler and data races; ticks are logical.
- Liveness under an arbitrary schedule: termination of binary agreement is probabilistic, and a decided node starts no further round; what is proved is when a node is blocked and when it is not, and that some run ends well.
- Byzantine leaders of block agreement: forwarded proposals keep the leader's sender field, so the check that compares forwarded proposals is not reached by them, and a notify does not tie its block to its commits.
- proposeTxs, encryption and the splitting of transactions, waitForMatchingBlock and sendDecryptionShares: random choice and calls into the encryption library; their results are the grids and messages of the model.
- The block's TxsCount: a byte count divided by a configured size.
- Top level `Run` and `runProtocol`: set-up, tickers and the choice between the two protocols.
- BroadcastProgress.NeverStuck: as for SenderValidity, only the sender's value circulates as VAL and as the sender's message to the committee; RestsExactly says when that is sure.
- BroadcastSafety.SenderValidity: holds only where every VAL around carries the sender's value, because the handler does not look at who sent a VAL; ValidityExactly says when that is sure.
- BroadcastSafety.Agreement: equality is of hashes; FullOutputsAgree and OneValueExactly say when it is of values.
- CommonSubsetSafety.Agreement: the agreements' outputs are arbitrary, and each broadcast delivers values of one hash to the honest nodes, which is what BroadcastSafety.Agreement proves; agreement of C2 with C2 or of C3 across nodes is not claimed, it comes from the certificate.
- BlockAgreementSafety.Agreement: benign faults and timely notifies only; a check that dereferences an empty slot crashes its node, and proposals are compared as values instead of by hash.
- BlockPointersCommittee.SamePointer: for runs whose joins use different keys, because the program does not tie a share's key to the sender; WellFormedExactly and SameHashExactly say which setups have only such runs.
- BlockPointersHash.SameHashExactly: for a committee that follows the program; with faulty members UniquePointer is what is left.
- BlockConstruction.BuildsExactly: for vectors of one shape from distinct members on the same plaintexts, as an honest committee sends them.
