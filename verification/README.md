# Hexfield: consensus, mental poker and their proofs, verified

Hexfield is a peer-to-peer board game without a server. Its players agree on one log by a Tendermint-style
protocol, deal cards from decks that no one ever saw in the clear, and prove to each other that hidden moves
were lawful. This project models that logic in Dafny and proves what it is for.

**Consensus** (`Votes` to `ConsensusController`). One node is a record and a reducer over its events: proposals,
prevotes, precommits, locks, hints and jumps, timeouts, certificates, evidence and halting. Every event keeps one
record invariant; the imperative reducer with its loops is proved equal to it. A whole height is a system of
voters, each with any number of controllers on one durable store that may crash between any two stages, beside
voters that may sign anything. In every run of it the correct voters decide one value, never sign twice, are never
convicted by evidence, and move their highest round only on a real precommit quorum. And they get on: a backed
proposal is decided, an acceptable one prevoted, what a record calls for is signed and sent, and a quorum of voters
that hear each other decide.

**Decks** (`DeckSetup` to `LedgerRuns`). Each player shuffles and multiplies, then swaps the shuffle key for a lock
on every position; draws peel locks off. One bijection from positions to cards explains every draw, reveal and
denial, and in every run of the public ledger each position is dealt once, in order, after all committed passes.
Whatever an honest player makes next is accepted.

**Proofs** (`Group` to `DleqOr`). Feldman shares, opening and equality proofs, range proofs, OR compositions, hidden
transfers and shuffle proofs over a group of arbitrary prime order: completeness, and what two accepted answers to
one commitment reveal.

**Machines and codecs** (`HashChain`, `Beacon*`, `Framing` to `MessageFramer`, `Base64Url` to `CanonicalText`,
`Utf8` to `ManualSdp`, `Rooms`, `RoomServer`). Shared randomness from one-way chains, reassembly of frames,
canonical text, the manual connection wire, and signaling rooms.

Two properties a reader might expect do not hold of the code as it is, and the model keeps the code:

- A record is not always restorable. When a prevote quorum makes a voter lock a value whose precommit its local
  policy then turns nil (`packages/protocol/src/consensus.ts:709-720` before `399-406`), the record it writes fails
  the check at `922-932` on restart. `RefusedLock.RefusalBreaksRestart` is a concrete case and
  `ConsensusLocks.StepRestorable` the exact condition.
- The manual connection wire does not return every text. The platform decoder drops a byte order mark at the start
  of each text it is given (`packages/p2p/src/manual-sdp-codec.ts:37`, used at `98-100` and `210`), so a description, a
  verbatim line or the rest of a prefixed line that begins with U+FEFF loses it. `SdpRoundTrip.MarkIsLost` is a
  concrete case and `SdpRoundTrip.RoundTrip` the exact condition. The empty description encodes to one byte, which
  the decoder refuses.

`dafny verify dfyconfig.toml` checks the whole project.

## Model

| member | source | states |
|---|---|---|
| Votes.QuorumsMeet | packages/protocol/src/votes.ts:70-74 | any two quorums of one membership share a voter outside any set of tolerated faulty voters |
| Votes.QuorumIsLeast | packages/protocol/src/votes.ts:70-74 | a quorum is as small as it can be for any two of them to share a voter beside the tolerated faulty ones |
| Rotation.ProposerIs | packages/protocol/src/proposal.ts:154-169 | the eligible voters take turns, one place on with each height and each round |
| Rotation.EveryVoterProposes | packages/protocol/src/proposal.ts:154-169 | from any round on each eligible voter proposes within as many rounds as there are eligible voters |
| Votes.VerifyCertificate | packages/protocol/src/votes.ts:125-159 | the checking loop accepts exactly the lists of valid votes of strictly rising seats, each for the one height, round, phase and value, that reach the quorum |
| Votes.SortRises | packages/protocol/src/consensus.ts:355-368 | votes of distinct seats sort, keeping exactly the same votes, into strictly rising seats, as a certificate needs |
| ConsensusRecord.QuorumForCertifies | packages/protocol/src/consensus.ts:355-368 | a quorum read off a valid record is a valid certificate made of recorded votes |
| ConsensusRecord.OneQuorumPerRound | packages/protocol/src/consensus.ts:355-368 | two prevote certificates of one round whose votes are in one record name the same value |
| LockRule.AcceptedIsJustified | packages/protocol/src/consensus.ts:1317-1341 | a proposal the lock lets this voter prevote is justified against every earlier own precommit: the same value, or a prevote quorum at least as recent |
| LockRule.PushKeepsRules | packages/protocol/src/consensus.ts:389-432 | signing one more vote that respects the lock keeps both halves of the lock rule over everything the voter has signed |
| ConsensusSteps.SignKept | packages/protocol/src/consensus.ts:389-432 | signing a vote once keeps the record invariant, records what it broadcasts and moves the step |
| ConsensusSteps.RecordVoteKept | packages/protocol/src/consensus.ts:434-466 | recording a vote changes only votes and evidence and keeps the invariant |
| ConsensusSteps.RecordVoteNotes | packages/protocol/src/consensus.ts:434-466 | a received vote is recorded, or its seat, round and phase hold another value, and then the two are kept as evidence |
| ConsensusSteps.RecordProposalKept | packages/protocol/src/consensus.ts:468-503 | recording a proposal changes only proposals and evidence and keeps the invariant |
| ConsensusSteps.RecordProposalNotes | packages/protocol/src/consensus.ts:468-503 | a voter's proposal is dropped only when its round holds two, and the second one recorded is kept as evidence |
| ConsensusSteps.AddHintKept | packages/protocol/src/consensus.ts:505-509 | hints stay at most one a seat, all for later rounds |
| ConsensusSteps.HaltForControlKept | packages/protocol/src/consensus.ts:527-545 | a control fault stops the record for good, nothing else does anything, and nothing signed changes |
| ConsensusSteps.ThresholdKept | packages/protocol/src/consensus.ts:572-589 | too many proven equivocators, or evidence against this voter itself, stop the record for good; otherwise nothing changes |
| ConsensusSteps.EnterRoundKept | packages/protocol/src/consensus.ts:591-616 | entering a later round and replaying its hints keeps the invariant and drops nothing signed |
| ConsensusSteps.MaybeJumpKept | packages/protocol/src/consensus.ts:618-628 | a jump to the second-highest hinted round keeps the invariant |
| ConsensusSteps.QuorumCertifiesProposal | packages/protocol/src/consensus.ts:630-677 | a recorded proposal with a recorded precommit quorum is a valid certified entry |
| ConsensusSteps.MaybeCommitKept | packages/protocol/src/consensus.ts:630-677 | the scan for a precommit quorum keeps the invariant and changes only the decision and the halting fields |
| ConsensusSteps.LockValueKept | packages/protocol/src/consensus.ts:702-722 | marking a value valid and locking it keeps the invariant, whether or not the precommit is then refused |
| ConsensusSteps.DriveKept | packages/protocol/src/consensus.ts:679-737 | one drive keeps the invariant and leaves round, proposals and hints alone |
| ConsensusEvents.RetainKept | packages/protocol/src/consensus.ts:1148-1200 | a proven accusation that contradicts the record stops it for good; any other is pending afterwards, unless the record is finished or the accused is excluded; the invariant holds |
| ConsensusEvents.ProposeKept | packages/protocol/src/consensus.ts:1243-1315 | proposing keeps the invariant, with its one own proposal a round |
| ConsensusEvents.ProposesValidValue | packages/protocol/src/consensus.ts:1243-1315 | the one proposal that is broadcast is valid, repeats the valid value with its quorum when there is one, and passes this voter's own lock |
| ConsensusEvents.ProposalKept | packages/protocol/src/consensus.ts:1343-1415 | a received proposal keeps the invariant, whichever branch takes it |
| ConsensusEvents.VoteKept | packages/protocol/src/consensus.ts:1417-1457 | a received vote keeps the invariant |
| ConsensusEvents.CommitKept | packages/protocol/src/consensus.ts:1460-1504 | a received certificate keeps the invariant and never replaces a decision |
| ConsensusEvents.TimeoutKept | packages/protocol/src/consensus.ts:1533-1562 | a timeout keeps the invariant |
| ConsensusEvents.ReduceKept | packages/protocol/src/consensus.ts:739-761 | every accepted event of every kind keeps the record invariant, drops no signed vote or proposal and no decision, and broadcasts only what the new record holds |
| ConsensusEvents.CreatedRecord | packages/protocol/src/consensus.ts:764-842 | a fresh record of a new height has the invariant, whatever accusation the height before carries into it |
| ConsensusDecides.QuorumIsCounted | packages/protocol/src/consensus.ts:355-368 | a certificate is read off a record exactly when a quorum of different seats has a recorded vote for its round, phase and value |
| ConsensusDecides.MaybeCommitDecides | packages/protocol/src/consensus.ts:630-677 | an undecided record decides exactly when a recorded proposal has a quorum of recorded precommits and the earliest such proposal carries no fault; it decides that entry and hands out its commit and no other; a backed proposal that is at fault or contradicts the decision, and nothing else, stops it |
| ConsensusDecides.CalmDecides | packages/protocol/src/consensus.ts:630-677 | where all backed proposals name one value and none is at fault, the record decides exactly when there is one, halts nothing and changes nothing else |
| ConsensusDecides.MaybeCommitAsks | packages/protocol/src/consensus.ts:640-651 | the record asks for exactly the proposals that a quorum precommitted and it does not hold |
| ConsensusProgress.DrivePays | packages/protocol/src/consensus.ts:679-737 | a drive of a record that backs nothing leaves nothing undone: a recorded proposal of the round has its prevote, a prevote quorum its lock and precommit (nil for nil), a quorum of votes its timer, each recorded and sent |
| ConsensusProgress.DriveSettles | packages/protocol/src/consensus.ts:679-737 | after a drive no backed proposal is left undecided in a record that still runs |
| ConsensusReacts.ReduceSettles | packages/protocol/src/consensus.ts:739-761 | after any event that drives an undecided record: if it still runs, nothing backed is undecided; where all backed proposals agree and none is at fault it runs on, has decided exactly when there is one, and hands out that commit and no other |
| ConsensusReacts.ProposalPrevoted | packages/protocol/src/consensus.ts:1317-1415 | a valid proposal of its round gets a running voter's one prevote of that round, for its value exactly when there is no lock, or a lock on it, or one no later than the round it proves, and the local policy admits it; nil otherwise |
| ConsensusReacts.VoteCounted | packages/protocol/src/consensus.ts:1417-1457 | a valid vote of this height and of no later round, that proves no more faults than are tolerated, is recorded and the record driven |
| ConsensusReacts.TimeoutActs | packages/protocol/src/consensus.ts:1533-1562 | a timeout of the present round that still runs makes the voter sign the nil votes it owes up to that phase, and from the last phase enter the next round; any other timeout does nothing |
| ConsensusReacts.RoundEntered | packages/protocol/src/consensus.ts:591-616 | entering a round takes the hints of that round, keeps exactly those of later rounds, asks the elected proposer for a value, and starts the proposal timer exactly where an input is known |
| ConsensusReacts.JumpsIff | packages/protocol/src/consensus.ts:618-628 | a jump reaches a later round exactly when the hints of two voters do |
| ConsensusReacts.LaterVoteJumps | packages/protocol/src/consensus.ts:1417-1457 | a vote of a later round moves a running voter up to each later round exactly when, with it, the hints of two voters reach that round |
| ConsensusReacts.LaterProposalJumps | packages/protocol/src/consensus.ts:1343-1415 | so does a proposal of a later round |
| ConsensusReacts.InputStarts | packages/protocol/src/consensus.ts:1125-1146 | an input starts the proposal timer of an idle voter, and makes the elected proposer ask for a value, exactly once |
| ConsensusReacts.ProposerProposes | packages/protocol/src/consensus.ts:1243-1315 | the elected proposer that has not proposed broadcasts its valid value, or else the candidate, and prevotes it unless its own policy refuses it |
| ConsensusReacts.CertificateDecides | packages/protocol/src/consensus.ts:1460-1504 | a certificate decides a running record exactly when it is valid, holds no own vote or entry unknown to the record and carries no fault; one of another value stops a decided record |
| ConsensusReacts.RejectedIff | packages/protocol/src/consensus.ts:1343-1358 | an invalid proposal is refused unless it is authentic and carries a proven accusation that contradicts the record, which then stops for good |
| ConsensusReacts.ReplayResumes | packages/protocol/src/consensus.ts:1507-1531 | a replay resumes exactly a record that restores, stopped at a certified value, once that value is valid; it then decides it |
| ConsensusSends.DriveSends | packages/protocol/src/consensus.ts:389-432 | a drive sends exactly the votes it signs |
| ConsensusSends.ReduceSends | packages/protocol/src/consensus.ts:739-761 | one accepted event, whatever it is, broadcasts exactly the own votes it adds to the record |
| GoodRound.EventGood | packages/protocol/src/consensus.ts:739-761 | no input, proposal or vote of a round with one valid value is refused or stops a record, and each leaves nothing owed |
| GoodRound.EveryoneDecides | packages/protocol/src/consensus.ts:679-737 | in any interleaving, with any repetition, in which the voters of a quorum hand each other one valid proposal and their own votes and no timeout expires: once everything sent was handed over, every one of them has decided that proposal and handed out its commit |
| GoodRound.NeverStuck | packages/protocol/src/consensus.ts:679-737 | until then some voter can be handed something it was not handed yet |
| ConsensusRestore.RestoreKeepsRecord | packages/protocol/src/consensus.ts:845-1122 | a restored record is the stored one, or the stored one stopped for good: nothing signed is lost |
| ConsensusRestore.RestoreIsIdempotent | packages/protocol/src/consensus.ts:845-1122 | a restored record restores to itself, so it is rewritten at most once |
| ConsensusLocks.RestorableIffLockVoted | packages/protocol/src/consensus.ts:922-1015 | a record with the invariant passes every check of a restart exactly when its lock has its own precommit |
| ConsensusLocks.DriveVoted | packages/protocol/src/consensus.ts:702-737 | a drive leaves a restorable lock exactly when it did not refuse a lock of this round |
| ConsensusLocks.StepRestorable | packages/protocol/src/consensus.ts:709-720 | one event leaves a restorable record restorable if and only if the local policy does not refuse a value that a prevote quorum makes this voter lock |
| ConsensusLocks.NoPolicyRestores | packages/protocol/src/consensus.ts:389-432 | without a local policy no event refuses a lock, so every event leaves a restorable record restorable |
| RefusedLock.RefusalBreaksRestart | packages/protocol/src/consensus.ts:709-720 | a concrete record, prevote and policy: the reducer locks the value, the policy turns the precommit nil, and the record it returns cannot be restored |
| Restarts.RestoredIsSound | packages/protocol/src/consensus.ts:845-1085 | any stored record that passes a restart is bound to this voter and height, holds one vote a seat, round and phase, one own proposal a round and every own vote any proof in it contains, and its lock is exactly its latest own precommit for a value |
| Restarts.RestartStopsIff | packages/protocol/src/consensus.ts:1086-1117 | a restart stops such a record exactly when the voter is excluded or the record carries an accusation of it, of a second voter, or beside another voter's exclusion |
| Recovery.RecoveryRepeats | packages/protocol/src/consensus.ts:1567-1619 | recovery repeats a vote exactly when it is an own recorded vote, and a proposal exactly when it is an own recorded proposal |
| Recovery.RecoveryDescends | packages/protocol/src/consensus.ts:1567-1619 | what is sent again goes from the latest round down, in each round the proposal before its votes |
| ConsensusReacts.RecoveryResumes | packages/protocol/src/consensus.ts:1567-1619 | a restarted voter schedules exactly the timers whose expiry it still acts on, hands out exactly the commit of its decision, and asks for a value exactly as elected proposer without a proposal; a stopped one says only that it stopped |
| ConsensusRounds.SecondHighestHint | packages/protocol/src/consensus.ts:618-628 | the round of a jump is reached by the hints of two different seats |
| ConsensusRounds.ReduceMoves | packages/protocol/src/consensus.ts:618-628 | a round changes only on this voter's own precommit quorum of the round before, or on hints of two other seats for that round or a later one |
| Agreement.CommonVoter | packages/protocol/src/consensus.ts:355-368 | two ballots each signed by a quorum have a lawful voter in common |
| Agreement.QuorumBindsLaterRounds | packages/protocol/src/consensus.ts:1317-1341 | after a precommit quorum, every prevote quorum of that or any later round names its value |
| Agreement.PrecommitQuorumsAgree | packages/protocol/src/consensus.ts:630-677 | no two precommit quorums of one height disagree, whatever their rounds and whatever the tolerated faulty voters signed |
| NetworkInv.CertificatesAreValid | packages/protocol/src/proposal.ts:331-381 | within the fault bound an authentic certificate always certifies a valid value, because a correct voter signed it |
| NetworkInv.MoveIsClosed | packages/protocol/src/consensus.ts:591-628 | a round move stays within rounds that some correct voter left with a precommit quorum |
| NetworkInv.StepKeeps | packages/protocol/src/consensus-controller.ts:64-268 | every step of the whole system (create, load, open, dispatch, discard, save, emit, settle, resume, crash, by any number of controllers on one store) keeps the system invariant |
| NetworkInv.RunKeeps | packages/protocol/src/consensus-controller.ts:64-268 | the system invariant holds after every run, whatever is interleaved, lost, repeated or crashed |
| NetworkSafety.WorldIsLawful | packages/protocol/src/consensus.ts:679-737 | all votes that exist in a run obey the lock rule for every correct voter |
| NetworkSafety.CertificatesAgree | packages/protocol/src/consensus.ts:1460-1504 | no two certificates that can exist at one height certify different values |
| NetworkSafety.RecordsGrow | packages/protocol/src/consensus-controller.ts:186-268 | a durable record only grows along a run |
| NetworkSafety.AgreementInRuns | packages/protocol/src/consensus.ts:630-677 | agreement: whatever two correct voters decide, at whatever points of a run and in whatever rounds, is one value |
| NetworkSafety.SentOnce | packages/protocol/src/consensus-controller.ts:186-268 | everything a correct seat ever broadcast, by all its controllers and restarts, has one vote a round and phase and one proposal a round |
| NetworkSafety.NeverConvicted | packages/protocol/src/control.ts:119-152 | in every run no vote- or proposal-equivocation evidence naming a correct seat validates, whatever its other signers signed |
| Convictions.NotedConvicts | packages/protocol/src/control.ts:100-152 | kept evidence of either kind convicts exactly a voter that is not excluded yet, at an intact parent |
| Convictions.ConflictConvicts | packages/protocol/src/consensus.ts:434-466 | a voter whose two conflicting votes reach one running voter is convicted by the evidence that voter then keeps |
| Convictions.AccusationTaken | packages/protocol/src/consensus.ts:1148-1212 | an accusation is taken exactly when it is proven, and is then pending in a running record that it does not contradict |
| NetworkSafety.HighestRoundRises | packages/protocol/src/consensus.ts:618-628 | one step raises the highest round of the correct voters by at most one, and only after a correct voter held a precommit quorum of that round |
| NetworkSafety.RoundsNeedQuorums | packages/protocol/src/consensus.ts:1533-1562 | before a correct voter goes beyond a round, some correct voter held a precommit quorum of that round |
| NetworkSafety.RunsRestore | packages/protocol/src/consensus.ts:845-1122 | after any run in which no local policy refused a lock, every durable record passes every check of a restart |
| ConsensusReducer.WorkingCopy.SignLocalVote | packages/protocol/src/consensus.ts:389-432 | signing on the fields of the working copy gives exactly the state and effects of the reducer the lemmas are about |
| ConsensusReducer.WorkingCopy.RecordVote | packages/protocol/src/consensus.ts:434-466 | recording a vote on the fields of the working copy gives exactly the state and effects of the reducer the lemmas are about |
| ConsensusReducer.WorkingCopy.RecordProposal | packages/protocol/src/consensus.ts:468-503 | recording a proposal, with its scan for conflicts on the fields of the working copy gives exactly the state and effects of the reducer the lemmas are about |
| ConsensusReducer.WorkingCopy.AddHint | packages/protocol/src/consensus.ts:505-509 | the scan that replaces or appends a hint on the fields of the working copy gives exactly the state and effects of the reducer the lemmas are about |
| ConsensusReducer.WorkingCopy.EnterRound | packages/protocol/src/consensus.ts:591-616 | entering a round, with its replay of hints on the fields of the working copy gives exactly the state and effects of the reducer the lemmas are about |
| ConsensusReducer.WorkingCopy.MaybeJump | packages/protocol/src/consensus.ts:618-628 | jumping on the fields of the working copy gives exactly the state and effects of the reducer the lemmas are about |
| ConsensusReducer.WorkingCopy.MaybeCommit | packages/protocol/src/consensus.ts:630-677 | the nested commit scan, with its early returns on the fields of the working copy gives exactly the state and effects of the reducer the lemmas are about |
| ConsensusReducer.WorkingCopy.PrevoteProposal | packages/protocol/src/consensus.ts:1317-1341 | prevoting under the lock on the fields of the working copy gives exactly the state and effects of the reducer the lemmas are about |
| ConsensusReducer.WorkingCopy.LockAll | packages/protocol/src/consensus.ts:702-722 | the locking loop on the fields of the working copy gives exactly the state and effects of the reducer the lemmas are about |
| ConsensusReducer.WorkingCopy.ArmTimers | packages/protocol/src/consensus.ts:727-734 | arming the timers on the fields of the working copy gives exactly the state and effects of the reducer the lemmas are about |
| ConsensusReducer.WorkingCopy.Drive | packages/protocol/src/consensus.ts:679-737 | driving on the fields of the working copy gives exactly the state and effects of the reducer the lemmas are about |
| ConsensusReducer.Transition | packages/protocol/src/consensus.ts:739-761 | every event of every kind, run on the working copy with its loops and early returns, gives exactly the record and effects of the reducer the lemmas are about, or the same error |
| ConsensusController.MemorySafetyStore.Save | packages/protocol/src/safety-store.ts:29-48 | a save succeeds exactly when the expected revision is the stored one, and a failed save changes nothing |
| ConsensusController.OwnedConsensusState.Dispatch | packages/protocol/src/consensus.ts:1708-1759 | a dispatch is refused while another is pending, and otherwise leaves its result pending without installing it |
| ConsensusController.OwnedConsensusState.Commit | packages/protocol/src/consensus.ts:1761-1774 | a commit installs exactly the pending state |
| ConsensusController.Controller.Create | packages/protocol/src/consensus-controller.ts:64-84 | a controller is created exactly for a new height with an empty store, which then holds its first record at revision zero, with the accusation carried into it |
| ConsensusController.Controller.Restore | packages/protocol/src/consensus-controller.ts:87-131 | a restored controller stands on the checked stored record; only terminal evidence may rewrite it, and never under an exact restore |
| ConsensusController.Controller.Dispatch | packages/protocol/src/consensus-controller.ts:186-268 | effects are handed out only when the record they come from was saved at the expected revision; otherwise nothing changes; a lost compare-and-swap, a record that no longer checks and a handler that throws part way stop the controller |
| ConsensusController.Controller.Resume | packages/protocol/src/consensus-controller.ts:173-184 | resuming hands out exactly the recovered effects of the record and changes no record |
| ConsensusController.DispatchIsStages | packages/protocol/src/consensus-controller.ts:186-268 | what a dispatch does to store, state and revision is what the network stages do one by one |
| Group.InvertScalar | packages/crypto/src/group.ts:91-95 | inversion succeeds exactly for nonzero canonical scalars and gives a canonical inverse |
| Group.CancelFactor | packages/crypto/src/group.ts:91-104 | a nonzero factor cancels: the order is prime |
| Group.ZeroSafeDifference | packages/crypto/src/group.ts:107-117 | the two products by nonzero scalars differ by exactly the product asked for, also for scalar zero |
| Polynomials.TooManyRoots | packages/crypto/src/feldman.ts:149-177 | a polynomial with at least as many distinct roots as coefficients is zero everywhere |
| Feldman.PolynomialAt | packages/crypto/src/feldman.ts:51-57 | the Horner loop gives the reduced value of the polynomial |
| Feldman.PrefixIsEval | packages/crypto/src/feldman.ts:51-57 | summing terms from the lowest agrees with Horner's rule |
| Feldman.CreateShares | packages/crypto/src/feldman.ts:63-102 | shares are made exactly for a valid dealing; each holds the value of one polynomial at its index, whose public coefficients are the commitments and whose constant is the secret |
| Feldman.VerifyShare | packages/crypto/src/feldman.ts:105-142 | the loop over commitments accepts exactly the shares whose value is the committed polynomial's value at their index |
| Feldman.InterpolantAt | packages/crypto/src/feldman.ts:149-177 | the Lagrange polynomial takes each share's value at its index |
| Feldman.PassingAgree | packages/crypto/src/feldman.ts:149-177 | two short polynomials through the same shares agree everywhere |
| Feldman.RecoverSecret | packages/crypto/src/feldman.ts:149-177 | the loops succeed exactly on recoverable shares and return the value at zero of every polynomial of that length through the first threshold shares |
| Feldman.AcceptedSharesRecover | packages/crypto/src/feldman.ts:105-177 | any threshold accepted shares with distinct indices recover the scalar whose public point is the first commitment |
| Feldman.DealtSharesAccepted | packages/crypto/src/feldman.ts:63-142 | every dealt share is accepted by its recipient |
| Permutations.Permute | packages/crypto/src/shuffle.ts:104-112 | the indexed writes move each item to the place the permutation names |
| Permutations.RoundPermutation | packages/crypto/src/shuffle.ts:129-157 | the in-place Fisher-Yates walk gives a bijection whatever the draws |
| DeckSetup.ReplayDeckSetup | packages/protocol/src/deck-setup.ts:472-500 | the replay loop succeeds exactly when every pass applies in order and there are two for each participant, and returns the folded state |
| DeckSetup.SignDeckShuffle | packages/protocol/src/deck-setup.ts:381-422 | a shuffle pass is signed exactly by the next shuffler with a secret and a permutation, satisfies the shuffle relation, and with complete provers is accepted by everyone |
| DeckSetup.SignDeckLock | packages/protocol/src/deck-setup.ts:425-470 | a lock pass is signed exactly by the next locker who opens its shuffle key, with distinct locks that give distinct points; every position satisfies the equality its proof claims, and with complete provers everyone accepts the pass |
| DeckSetup.LockExponentIs | packages/protocol/src/deck-setup.ts:425-470 | multiplying by lock over shuffle secret removes the shuffle key and leaves the lock |
| DeckProgress.TranscriptOrder | packages/protocol/src/deck-setup.ts:248-361 | in an accepted transcript the players take turns in seat order, first to shuffle and then to lock, each under its own key |
| DeckConservation.ShuffleHolds | packages/protocol/src/deck-setup.ts:278-361 | a shuffle with its relation moves every card by one permutation and adds one key to every position |
| DeckConservation.LockHolds | packages/protocol/src/deck-setup.ts:278-361 | a lock pass with its relations replaces this seat's shuffle key by its lock on every position and moves no card |
| DeckConservation.PassHolds | packages/protocol/src/deck-setup.ts:278-361 | every accepted pass conserves the cards |
| DeckConservation.TranscriptHolds | packages/protocol/src/deck-setup.ts:472-500 | after any accepted transcript of any number of players the positions hold the cards by one bijection |
| DeckDraw.VerifyDeckUnlockPrefix | packages/protocol/src/deck-draw.ts:253-314 | the loop accepts exactly the prefixes whose every unlock follows the frozen order, signer and point, and returns the point they leave |
| DeckDraw.SignedUnlockHolds | packages/protocol/src/deck-draw.ts:317-348 | a signed unlock divides out exactly this seat's lock |
| DeckDraw.PrefixRemoves | packages/protocol/src/deck-draw.ts:253-314 | the frozen point is what a prefix leaves, times exactly the locks of its unlockers |
| DeckDraw.DealtPoint | packages/protocol/src/deck-draw.ts:362-413 | after a complete draw the point is the position's card under the drawer's lock, or bare when public |
| DeckDraw.PrivateDrawDecodes | packages/protocol/src/deck-draw.ts:424-448 | every private draw decodes, by its drawer's lock, to the one card of its position |
| DeckDraw.PublicDrawDecodes | packages/protocol/src/deck-draw.ts:454-473 | every public draw decodes to the one card of its position |
| DeckDraw.OneDealForEveryone | packages/protocol/src/deck-draw.ts:424-473 | one bijection from positions to cards explains every successful private and public decoding by anyone |
| DeckProgress.FreezeIff | packages/protocol/src/deck-draw.ts:170-208 | a draw is frozen exactly for a position of a fully locked deck, by one of its players, after the deck's creation |
| DeckProgress.UnlockAccepted | packages/protocol/src/deck-draw.ts:317-360 | the unlock the next seat signs with its own lock is accepted after its prefix |
| DeckProgress.HonestDraw | packages/protocol/src/deck-draw.ts:170-473 | every draw a locked deck can freeze is completed by its players' unlocks, and then decodes, privately or publicly, to the card of its position |
| DeckProgress.HonestReveal | packages/protocol/src/deck-draw.ts:537-576 | the owner of a private card shows it with its own lock, in any later context of the game, and is believed |
| DeckProgress.FrozenAfterCreation | packages/protocol/src/deck-draw.ts:170-208 | no draw of a certified deck belongs to another game or precedes the entry that created the deck |
| DeckReveal.RevealIsDealt | packages/protocol/src/deck-draw.ts:496-576 | an accepted reveal of a privately drawn card names exactly the card of its position |
| DeckDenial.DenialIsTrue | packages/protocol/src/deck-draw.ts:586-671 | a denial that can be rewound is true: the holder's lock opens a card outside the excluded kinds |
| DeckDenial.HonestDenial | packages/protocol/src/deck-draw.ts:635-671 | the holder of a card that is not excluded can deny in any later context of the game: it knows a branch, and any proof of the statement that verifies is accepted |
| DeckDenial.TrueDenialOpens | packages/protocol/src/deck-draw.ts:586-650 | a holder whose card is not excluded has the secret of a branch, so the denial can be proved |
| DeckLedger.CheckSlots | packages/protocol/src/deck-ledger.ts:222-265 | the slot loop accepts exactly the slots in rising order of position with fresh ids and returns all ids seen |
| DeckLedger.ValidateDeckLedger | packages/protocol/src/deck-ledger.ts:196-309 | the deck loop accepts exactly the valid ledgers |
| DeckLedger.InitializeDeckLedger | packages/protocol/src/deck-ledger.ts:312-344 | a ledger is made exactly for commitments that match the engine's decks at genesis, can be set up, list every pass once and rise by deck; it is valid and holds every deck unshuffled and undealt |
| DeckLedger.RevealDeckCards | packages/protocol/src/deck-ledger.ts:638-695 | the loop over the evidence succeeds exactly when each item shows the named card of an owned hidden slot, and removes exactly those slots |
| LedgerRuns.PassEffect | packages/protocol/src/deck-ledger.ts:352-382 | an accepted pass changes only the first incomplete deck, and only by its next committed pass |
| LedgerRuns.CaptureKeeps | packages/protocol/src/deck-ledger.ts:443-498 | freezing a draw keeps the run invariant: it needs every deck ready and changes no deck |
| LedgerRuns.DealEffect | packages/protocol/src/deck-ledger.ts:501-578 | an accepted deal uses exactly the next position of the active draw's deck, and a public one names the card everyone decodes |
| LedgerRuns.ShowKeeps | packages/protocol/src/deck-ledger.ts:638-695 | accepted reveals take exactly the shown positions out of the hidden ones, and each shows the card of its position |
| LedgerRuns.EveryRunIsKept | packages/protocol/src/deck-ledger.ts:352-695 | in every run: no draw before all committed passes, deals take positions 0, 1, 2, … with none repeated, the slots are exactly the private unshown positions in order, and every card shown is the one the committed passes put there |
| LedgerRuns.DrawsWaitForSetup | packages/protocol/src/deck-ledger.ts:352-498 | while a draw is active or after any deal, every deck is its committed final state, replayed from its committed passes |
| LedgerRuns.NoCardTwice | packages/protocol/src/deck-ledger.ts:638-695 | in every run two reveals of one deck that show the same identity show the same position |
| LedgerRuns.CaptureFreezes | packages/protocol/src/deck-ledger.ts:443-498 | a frozen draw is the one the engine asked for, at the deck's next position, and asking again changes nothing |
| LedgerRuns.RevealsNameTheCard | packages/protocol/src/deck-ledger.ts:638-695 | each item of an accepted command names the deck, owner and id of a hidden slot and the very kind of card the passes put at its position |
| LedgerProgress.NextPassAccepted | packages/protocol/src/deck-ledger.ts:352-382 | while setup goes on, the next committed pass of the first incomplete deck is accepted |
| LedgerProgress.CaptureIff | packages/protocol/src/deck-ledger.ts:443-498 | a draw request is frozen exactly when the public game agrees with it and either it is the frozen one, or none is, cards are left, a player of the deck asks after its creation, and the slot id is new |
| LedgerProgress.DealIff | packages/protocol/src/deck-ledger.ts:501-578 | a deal of the frozen draw is accepted exactly when the public game still agrees, it comes after the request, all unlocks are there in order, its input names the slot or the card everyone decodes, and a private one's signers fit |
| LedgerProgress.RevealIff | packages/protocol/src/deck-ledger.ts:638-695 | reveals are accepted exactly when each item shows what it names, one for each, and no slot twice: the ledger they leave is always valid |
| LedgerProgress.HonestShow | packages/protocol/src/deck-ledger.ts:638-695 | in every run the owner of a hidden slot can show it with its own lock, and is accepted |
| LedgerProgress.ShownWasHidden | packages/protocol/src/deck-ledger.ts:600-636 | whatever a command shows was until then the signer's own card, hidden in the public game, where it was dealt |
| LedgerProgress.CaptureAgrees | packages/protocol/src/deck-ledger.ts:418-441 | a draw is frozen only where the public deck has used exactly the positions the ledger has |
| Sigma.ResponseAnswers | packages/crypto/src/sigma.ts:99-131 | an honest response satisfies the verification equation at any challenge |
| Sigma.TwoAnswers | packages/crypto/src/sigma.ts:175-191 | two answers to one first message at different challenges satisfy the extracted logarithm |
| Sigma.SchnorrComplete | packages/crypto/src/sigma.ts:99-131 | every honest opening proof verifies under any hash |
| Sigma.SchnorrSimulates | packages/crypto/src/sigma.ts:159-191 | a simulated opening passes inspection at its chosen challenge, also for a false statement |
| Sigma.SchnorrExtracts | packages/crypto/src/sigma.ts:175-191 | two accepted openings with one first message and different challenges reveal the secret |
| Sigma.PreparedSchnorr.Respond | packages/crypto/src/sigma.ts:134-156 | a prepared proof answers once, and its answer passes at the challenge given |
| Sigma.DleqComplete | packages/crypto/src/sigma.ts:193-230 | every honest equality proof verifies |
| Sigma.DleqExtracts | packages/crypto/src/sigma.ts:212-230 | equal first messages under different challenges reveal the one logarithm common to both points |
| ShuffleProof.Tau | packages/crypto/src/shuffle.ts:194-222 | the loop gives the way from the committed deck to the output |
| ShuffleProof.OneAnswerReconstructs | packages/crypto/src/shuffle.ts:194-274 | both kinds of answer rebuild the commitment of their round |
| ShuffleProof.ProveShuffle | packages/crypto/src/shuffle.ts:160-223 | a proof is made exactly for a valid witness, and it is accepted by the verifier |
| ShuffleProof.VerifyShuffle | packages/crypto/src/shuffle.ts:226-278 | the loop accepts exactly the readable proofs whose rebuilt commitments hash to their challenge |
| ShuffleProof.BothBitsReveal | packages/crypto/src/shuffle.ts:253-274 | answers to one commitment for both bits reveal a scalar and a bijection that shuffle the input into the output under the public key |
| ShuffleProof.DifferentChallengesReveal | packages/crypto/src/shuffle.ts:226-278 | two accepted proofs with equal round commitments and different challenges reveal such a shuffle |
| ShuffleProof.DifferentRound | packages/crypto/src/shuffle.ts:125-127 | two different challenges ask for different answers in some round |
| Range.PedersenIs | packages/crypto/src/range.ts:53-59 | the four nonzero multiplications commit exactly to value and blinding, also when either is zero |
| Range.BitAnswers | packages/crypto/src/range.ts:89-153 | an honest bit proof passes inspection at any challenge with its own first messages |
| Range.BitExtracts | packages/crypto/src/range.ts:89-107 | two bit proofs with equal first messages and different challenges open the commitment to zero or one |
| Range.PrepareRangeProof | packages/crypto/src/range.ts:192-244 | the loop with its reduced running sum computes the blindings whose last one is solved |
| Range.InspectRangeProof | packages/crypto/src/range.ts:286-312 | the inspecting loop agrees with the check on whole lists: one challenge for all bits, and weighted commitments that make up the statement |
| Range.SimulateRangeProof | packages/crypto/src/range.ts:247-283 | the simulating loop solves its last point so that the weighted points make up the commitment |
| Range.RangeAnswers | packages/crypto/src/range.ts:192-312 | for every width, a prepared range passes inspection at any challenge |
| Range.RangeSimulates | packages/crypto/src/range.ts:247-312 | a simulated range passes inspection at its chosen challenge, for any commitment |
| Range.RangeExtracts | packages/crypto/src/range.ts:286-312 | two accepted ranges with equal first messages and different challenges open the commitment to a value below two to the width |
| Range.RangeComplete | packages/crypto/src/range.ts:314-347 | every honest range proof verifies under any hash |
| Range.BitComplete | packages/crypto/src/range.ts:155-176 | every honest bit proof verifies under any hash |
| Range.RangeResponder.Respond | packages/crypto/src/range.ts:192-244 | a prepared range answers exactly once, with the prepared response to the challenge given |
| Cds.OrComplete | packages/crypto/src/cds.ts:81-192 | for any number of branches, a proof from any one known branch, with its opening and all its ranges, is accepted |
| Cds.OrExtracts | packages/crypto/src/cds.ts:172-193 | two accepted proofs with equal first messages and different totals give a full witness, opening and all ranges, of some single branch |
| HiddenTransfer.IndexStatement | packages/crypto/src/hidden-transfer.ts:124-146 | the loop with its running prefix builds exactly the index branches |
| HiddenTransfer.SelectedResource | packages/protocol/src/audit.ts:54-61 | the cursor loop returns the one kind whose interval of the hand holds the index, or none |
| HiddenTransfer.BranchSelects | packages/crypto/src/hidden-transfer.ts:124-146 | a witness of a branch puts the index inside that kind's interval over the integers |
| HiddenTransfer.BranchOpensIffSelected | packages/crypto/src/hidden-transfer.ts:124-146 | a branch has an opening with both six-bit ranges exactly when its kind is the one the index selects and the transfer of that kind is one |
| HiddenTransfer.TransfersSelectedCard | packages/crypto/src/hidden-transfer.ts:124-309 | openings of the transfer bits, of their sum and of one index branch make the transfer one-hot at exactly the kind the audit computes |
| HiddenTransfer.ProveHiddenTransfer | packages/crypto/src/hidden-transfer.ts:167-272 | a proof is made exactly for an opened hand and a one-hot transfer at the selected kind, and it is accepted |
| HiddenTransfer.VerifyHiddenTransfer | packages/crypto/src/hidden-transfer.ts:280-309 | the verifying loops accept exactly when every bit proof, the sum opening and the index proof verify |
| HiddenTransfer.RewoundTransferIsRight | packages/crypto/src/hidden-transfer.ts:280-309 | an accepted transfer that can be rewound moves exactly the card the index selects in the committed hand |
| DleqOr.ProveDleqOr | packages/crypto/src/dleq-or.ts:91-152 | a proof is made exactly from a branch whose secret opens it, and it is accepted |
| DleqOr.VerifyDleqOr | packages/crypto/src/dleq-or.ts:154-177 | the loop accepts exactly when the rebuilt first messages hash to the sum of the challenges |
| DleqOr.OrExtracts | packages/crypto/src/dleq-or.ts:154-177 | two accepted proofs with equal first messages and different totals reveal the secret of some branch |
| HashChain.CreateHashChain | packages/crypto/src/hash-chain.ts:13-26 | the chain runs from its tip to the seed: each place is the seed hashed the remaining number of times |
| HashChain.ChainLinks | packages/crypto/src/hash-chain.ts:13-26 | each link hashes to the one before it, and back to the tip in as many steps as its index |
| HashChain.VerifyHashChainLink | packages/crypto/src/hash-chain.ts:29-46 | the byte loop without early exit accepts exactly when the hash of the shown link is the previous one |
| Beacon.CompleteBeacon | packages/protocol/src/beacon.ts:196-225 | the loop accepts exactly one valid link for each frozen participant in seat order |
| Beacon.CompleteBeaconExtension | packages/protocol/src/beacon-extension.ts:169-205 | the loop accepts exactly one valid extension for each exhausted participant in seat order, and returns their commitments |
| Beacon.ValidChains | packages/protocol/src/beacon-state.ts:117-132 | the loop accepts exactly chains of rising seats, distinct keys and indices within their lengths |
| Beacon.InitializeBeaconState | packages/protocol/src/beacon-state.ts:191-225 | the loop succeeds exactly for humans in seat order with distinct keys and one commitment each, and builds one unused chain for each |
| BeaconRuns.StepsAreValid | packages/protocol/src/beacon-state.ts:147-188 | every accepted step leads from a valid state to a valid state |
| BeaconRuns.ExactlyOneOperation | packages/protocol/src/beacon-state.ts:262-310 | an active request has exactly one of a reveal and an extension operation, the reveal exactly when no chain is exhausted; an inactive state has neither |
| BeaconRuns.ExtendEach | packages/protocol/src/beacon-state.ts:313-347 | an extension replaces exactly the exhausted chains, each by its next epoch from index zero |
| BeaconRuns.ExtensionReenables | packages/protocol/src/beacon-state.ts:313-347 | after an extension the same request, in the same round and with the same anchor, can show its links |
| BeaconRuns.EveryRunKeepsItsBook | packages/protocol/src/beacon-state.ts:228-425 | in every run hashing a tip index times gives the tip committed for its epoch, and finished lengths plus the index make the rounds completed, so no link is skipped or shown twice |
| BeaconRuns.CommitmentsStay | packages/protocol/src/beacon-state.ts:313-347 | a commitment, once made, never changes along a run |
| BeaconRuns.RoundsCountCompletions | packages/protocol/src/beacon-state.ts:350-425 | rounds count accepted completions and nothing else |
| BeaconRuns.SeedIsDetermined | packages/protocol/src/beacon.ts:196-225 | with a collision-free hash any two completions of one state give the same seed, chains and outcome |
| BeaconRuns.SeedCoversEveryLink | packages/protocol/src/beacon-state.ts:350-414 | the seed of every accepted completion hashes the new tips of all chains in seat order, the outcome is derived from it, and a fixed steal holds exactly this seed and outcome |
| BeaconRuns.EveryLinkCounts | packages/protocol/src/beacon-state.ts:350-414 | with a collision-free seed hash, two completions whose links differ at any seat have different seeds |
| BeaconRuns.RequestNamesItself | packages/protocol/src/beacon-state.ts:228-259 | a frozen request carries the game, epoch, anchor and next round of the state it was frozen in, and its chains |
| Beacon.CompleteRequest | packages/protocol/src/beacon-state.ts:350-414 | the completing loop, which looks each chain's new tip up by seat, gives exactly the completion of the specification |
| BeaconProgress.CompleteIff | packages/protocol/src/beacon-state.ts:350-414 | a request is completed exactly when no chain is exhausted, the entry comes after its anchor, every player shows the value behind its tip for this operation under its key, and the seed derives an outcome |
| BeaconProgress.HonestCompletion | packages/protocol/src/beacon-state.ts:350-414 | players that hold the values behind their tips complete the request |
| BeaconProgress.ExtendIff | packages/protocol/src/beacon-state.ts:313-347 | an exhausted request is extended exactly by one valid extension for each exhausted chain, as long as no two chains end up under one key |
| BeaconProgress.ExtensionInstalls | packages/protocol/src/beacon-state.ts:313-347 | each exhausted chain is replaced by exactly what its own extension commits to, under the key that signed it |
| BeaconRuns.RevealsAreCommitted | packages/protocol/src/beacon.ts:144-173 | in every run the only value the link check accepts from an owner is the next link of the chain it committed |
| BeaconSource.SecretSource.ChainAt | packages/protocol/src/beacon-source.ts:64-90 | whatever is cached or evicted, the chain of an epoch is the one derived for it; evicted links are zeroed and at most two epochs stay |
| BeaconSource.SecretSource.LinkAt | packages/protocol/src/beacon-source.ts:92-98 | a link is returned exactly for an index inside the chain of a live source, and it is that epoch's link |
| BeaconSource.SecretSource.Dispose | packages/protocol/src/beacon-source.ts:113-119 | disposal zeroes the secret and every cached link |
| BeaconSource.SuppliedLinkIsTheOneAccepted | packages/protocol/src/beacon-source.ts:92-98 | in every run where a seat's commitment is what its source offered, the link the source supplies is accepted and no other value is |
| Framing.FrameRoundTrip | packages/p2p/src/framing.ts:31-70 | a frame's header and payload read back what was written |
| Framing.HeaderBytes | packages/p2p/src/framing.ts:44-50 | the header of a frame, byte by byte |
| Framing.AcceptKeeps | packages/p2p/src/framing.ts:54-130 | every call, returning or throwing, keeps the limits and the counter: partialBytes is the sum of the stored chunk lengths |
| MessageFramer.Framer.Split | packages/p2p/src/framing.ts:31-52 | the frames of a message carry its identifier, places and count and its payload in order |
| MessageFramer.Framer.Assemble | packages/p2p/src/framing.ts:95-105 | the copying loop fills the buffer with the parts in order |
| MessageFramer.Framer.Accept | packages/p2p/src/framing.ts:54-119 | the method with its maps and buffer gives the state and the answer of the specification |
| Reassembly.PiecesJoin | packages/p2p/src/framing.ts:31-52 | the payloads of all frames, in order, are the message |
| Reassembly.ArrivalTracks | packages/p2p/src/framing.ts:54-119 | one accepted frame returns the whole message exactly when it completes it for the first time |
| Reassembly.DeliveredExactlyOnce | packages/p2p/src/framing.ts:54-119 | for any order of arrival, with duplicates and interleaving, each fully arrived message is returned by exactly one call, byte for byte, and no other call returns anything |
| Reassembly.AcceptedIffRoom | packages/p2p/src/framing.ts:54-119 | an intact frame is accepted exactly when nothing has timed out and the receiver has room for it |
| Deadlines.TimedOutIff | packages/p2p/src/framing.ts:54-66 | a well-formed frame is refused for a timeout exactly when a partial message is overdue, and then exactly the overdue ones are dropped |
| Deadlines.RunTimesOut | packages/p2p/src/framing.ts:54-130 | in every run the next frame is refused for a timeout exactly when a message, started and not finished, had its last frame at least thirty seconds ago |
| Deadlines.RunRemembers | packages/p2p/src/framing.ts:106-117 | in every run the receiver remembers exactly the last sixty-four messages that were finished, in the order they were |
| Base64Url.ToBase64Url | packages/codec/src/canonical.ts:30-45 | the loop writes the unpadded digits of every group of up to three bytes |
| Base64Url.FromBase64Url | packages/codec/src/canonical.ts:47-72 | the loop with its accumulator returns bytes exactly for a text that is how those bytes encode |
| Base64Url.DecodeUndoesEncode | packages/codec/src/canonical.ts:30-72 | decoding undoes encoding for every byte string |
| Canonical.LessIsBefore | packages/codec/src/canonical.ts:131-131 | one key precedes another exactly when it is a proper prefix of it or has the smaller code unit at the first place where they differ |
| Canonical.SortRises | packages/codec/src/canonical.ts:131-131 | a record's keys, sorted, rise in exactly that sense |
| CanonicalText.EncodingRises | packages/codec/src/canonical.ts:79-152 | in every encoded text the keys of every record, at every depth, rise in that sense |
| CanonicalText.EncodingIsTransportable | packages/codec/src/canonical.ts:79-152 | an encoded text holds no control character and no lone surrogate, so nothing is lost on its way through UTF-8 |
| CanonicalText.RefusedIff | packages/codec/src/canonical.ts:126-130 | a value has no encoding exactly when a record inside it, at any depth, has the byte tag as its only key |
| CanonicalText.SampleRecord | packages/codec/src/canonical.ts:79-152 | a concrete record has exactly the expected text |
| Canonical.TaggedDecodes | packages/codec/src/canonical.ts:79-180 | reading back the tagged form of any accepted value, nested to any depth, gives its normal form |
| CanonicalText.PrintReads | packages/codec/src/canonical.ts:145-209 | reading the printed text of a value, followed by anything that cannot extend a number, gives the value and the rest, however the platform writes its numbers |
| CanonicalText.PrintInjective | packages/codec/src/canonical.ts:145-152 | no two values print the same text |
| CanonicalText.EncodeInjective | packages/codec/src/canonical.ts:79-152 | the encoding is injective on accepted values, up to the order of record keys |
| CanonicalText.DecodeUndoesEncodeValue | packages/codec/src/canonical.ts:160-209 | decoding an encoded value gives it back up to the order of its fields, and so does cloning it, for any parser that reads what the encoder writes, in whatever order it then lists the members |
| CanonicalText.DecodesExactlyEncodings | packages/codec/src/canonical.ts:195-209 | a text decodes exactly when it is the encoding of some value: no other representation is accepted |
| CanonicalText.OneTextEach | packages/codec/src/canonical.ts:195-209 | whatever the parser does, two texts that decode to one value are the same text |
| CanonicalText.ReaderIsAParser | packages/codec/src/canonical.ts:145-209 | what is asked of the parser can be met: a reader of exactly this grammar meets it |
| Utf8.DecodeUndoes | packages/p2p/src/manual-sdp-codec.ts:36-37 | decoding what was encoded gives the text back, but for one byte order mark at its start |
| SdpText.JoinUndoesSplit | packages/p2p/src/manual-sdp-codec.ts:195-195 | joining the parts of a split gives the text back |
| SdpText.UuidBack | packages/p2p/src/manual-sdp-codec.ts:107-117 | a UUID comes back from its sixteen bytes |
| SdpText.PairsBack | packages/p2p/src/manual-sdp-codec.ts:225-231 | a fingerprint comes back from its thirty-two bytes |
| SdpRoundTrip.ClassifyKeeps | packages/p2p/src/manual-sdp-codec.ts:119-183 | whatever branch a line takes, what it writes prints the line again, and every number fits its field |
| SdpRoundTrip.ItemReads | packages/p2p/src/manual-sdp-codec.ts:215-254 | reading back any written line, of all six tags, gives its text and stops where it stops |
| SdpRoundTrip.ReadsDelivered | packages/p2p/src/manual-sdp-codec.ts:186-261 | every nonempty description within the limit is read back, as the original without the marks the decoder drops |
| SdpRoundTrip.RoundTrip | packages/p2p/src/manual-sdp-codec.ts:186-261 | a description within the limit comes back whole if and only if it is not empty and no text given to the decoder begins with a byte order mark |
| SdpRoundTrip.MarkIsLost | packages/p2p/src/manual-sdp-codec.ts:210-210 | a concrete description that begins with a byte order mark comes back without it |
| SdpRoundTrip.WireIsShortest | packages/p2p/src/manual-sdp-codec.ts:186-204 | the wire is never longer than the text and one byte, and is the compact form wherever that is shorter |
| ManualSdp.Reader.Read32 | packages/p2p/src/manual-sdp-codec.ts:87-89 | four bytes read, at the moving end or offset, exactly as the value-level wire says |
| ManualSdp.Reader.Session | packages/p2p/src/manual-sdp-codec.ts:241-245 | eight bytes shifted in, at the moving end or offset, exactly as the value-level wire says |
| ManualSdp.Reader.Line | packages/p2p/src/manual-sdp-codec.ts:216-254 | one line by its tag, at the moving end or offset, exactly as the value-level wire says |
| SdpRoundTrip.AtU16 | packages/p2p/src/manual-sdp-codec.ts:56-58 | two bytes written with the high one first read back as the number, wherever they stand |
| SdpRoundTrip.AtU32 | packages/p2p/src/manual-sdp-codec.ts:60-62 | four bytes written with the high one first read back as the number, wherever they stand |
| ManualSdp.WriteLine | packages/p2p/src/manual-sdp-codec.ts:119-183 | the writer appends exactly the bytes of the line's class |
| ManualSdp.EncodeManualSdpWire | packages/p2p/src/manual-sdp-codec.ts:186-204 | the encoder returns the wire the round trip is about, or refuses a description over the limit |
| ManualSdp.DecodeManualSdpWire | packages/p2p/src/manual-sdp-codec.ts:206-261 | the decoder with its moving offset accepts and returns exactly what the wire reader does |
| Rooms.Arrive | apps/signaling/src/room-core.ts:117-129 | the loop that shifts old arrivals and the check after it give exactly the slid window |
| Rooms.ArrivalLimited | apps/signaling/src/room-core.ts:117-129 | over the whole history of accepted frames, a frame has room exactly when the thirtieth accepted one before it is a window old, and the kept arrivals stay the exact tail of that history |
| Rooms.NeverTooMany | apps/signaling/src/room-core.ts:117-129 | thirty-one accepted frames never fit in one window, wherever the window lies |
| Rooms.LeaveKeeps | apps/signaling/src/room-core.ts:161-170 | removing a member keeps sessions and rooms linked and shrinks its room |
| Rooms.JoinKeeps | apps/signaling/src/room-core.ts:276-299 | taking a place over an earlier session with that key keeps sessions and rooms linked and rooms within eight members |
| RoomServer.RoomCore.Open | apps/signaling/src/room-core.ts:81-108 | a new challenged session, or none when the send fails |
| RoomServer.RoomCore.Announce | apps/signaling/src/room-core.ts:333-345 | however sends fail, afterwards every member of every room was last sent exactly its room's members |
| RoomServer.RoomCore.Disconnect | apps/signaling/src/room-core.ts:161-170 | the session goes, nobody is added, only members of its room may follow, and every roster is announced |
| RoomServer.RoomCore.Join | apps/signaling/src/room-core.ts:248-301 | exactly a good join with a place is entered as a member, over any earlier session with its key; any other ends the session |
| RoomServer.RoomCore.Forward | apps/signaling/src/room-core.ts:303-331 | exactly a member's signal to a member of its own room is handed to that member's session under the sender's key and keeps the room alive; a session that does not take it goes |
| RoomServer.RoomCore.Admit | apps/signaling/src/room-core.ts:117-129 | the clock never runs back for a session, and its limiter admits exactly what the window allows |
| RoomServer.RoomCore.Receive | apps/signaling/src/room-core.ts:110-159 | after any frame all invariants hold, only a genuine join over this session's challenge makes a member, and at most one signal goes out, to the named member of the sender's own room |
| RoomServer.RoomCore.Sweep | apps/signaling/src/room-core.ts:233-242 | exactly the sessions that did not join in time and the members of idle rooms go |

## Left out

- Signatures, hashes and keys: a signature is the key it verifies under, a hash or operation id is the object it hashes, and a correct seat's votes and proposals of a height exist only once it broadcast them. Ed25519, SHA-256, HKDF and ristretto255 (RFC 9496) are not part of this model.
- Points are discrete logarithms modulo an arbitrary prime; for Pedersen commitments and ranges they are pairs of coefficients of the two generators. Challenge hashes are arbitrary functions. Hiding, zero knowledge, constant time and wiping of stack values are not modelled; simulators only as far as acceptance.
- Soundness of the accepted deck proofs is a hypothesis of the deck and ledger theorems (that an accepted shuffle or equality proof satisfies its relation); what two accepted answers to one commitment reveal is proved separately for each proof.
- Schema parsing, canonical copies and the validation memo caches: values arrive typed and within their schema bounds; the caches only skip repeated checks.
- In consensus the context-stamp comparison by object identity, the texts of halting reasons, the codes of errors beyond their cases, and the serialised byte forms.
- The queue of the controller and its asynchronous handlers: each method runs to its end, and crashes between its stages are steps of the network model.
- Clocks, randomness, timers and the network are parameters; WebRTC, WebSocket, HTTP and Durable Object adapters, the React app, bots, maps and the rules engine are not part of this model.
- Spy looks and re-locks of cards (the `relock` and `spy` fields of the ledger), membership changes, hand audits beyond the selected resource, and `verifyDeckDenials` over a command's list.
- What the platform's `JSON.parse` and number printing are is not modelled, only what ECMA-262 promises of them: `CanonicalText.ReadsPrinted`, `ReturnsPlain` and `Faithful`. Fractions and infinities, which the encoder refuses, and negative zero, which it writes as zero, are not values of the model; a string is its UTF-16 code units: that the UTF-8 step around a text loses nothing rests on `CanonicalText.EncodingIsTransportable`.
- `RoomCore.restoreSession` and `snapshotSession`: hibernation is left out, so the roster property is about sessions opened by this object.
- ConsensusController.Controller.Dispatch: the caches that skip an exact replay of a recorded proposal and repeat the answer to a rejected one are left out; in a run such an event is one that is never dispatched.
- GoodRound.EveryoneDecides: is about the first round of a height and reducers that are handed events one at a time; how long timeouts must be for later rounds to end in one is not modelled.
- DeckProgress.HonestDraw: that a prover can be complete is the hypothesis `DeckSetup.Complete`, proved of the provers themselves in `ShuffleProof` and `Sigma`.
- NetworkSafety.RunsRestore: covers runs whose local policies refuse no lock; for a single event the exact condition is `ConsensusLocks.StepRestorable`.
- NetworkSafety.NeverConvicted: covers the two kinds of equivocation evidence; whether a signed proposal is other objective misconduct is decided by the rules engine, which is a parameter here.
- ConsensusLocks.StepRestorable: the local policy is a function of the value, consulted once for each vote.
- DeckLedger.CheckSlots: the re-lock field of a slot is not checked.
- DeckLedger.ValidateDeckLedger: the spy field of the ledger and the re-lock fields of its slots are not checked.
- DeckLedger.InitializeDeckLedger: that the genesis itself is well formed and certified is established before it.
- DeckSetup.SignDeckShuffle: making a proof is a function of statement, witness and context; that the provers are complete is proved in `ShuffleProof` and `Sigma`.
- LedgerRuns.EveryRunIsKept: slots that changed hands by a re-lock are not covered.
- LedgerRuns.NoCardTwice: speaks of reveals; public deals are covered by `LedgerRuns.EveryRunIsKept` through the kind of card they name.
- Reassembly.DeliveredExactlyOnce: a duplicate that arrives after its finished message has left the window of remembered identifiers starts the message anew in the source; runs with such a late duplicate are excluded by the guard of `Reassembly.After`.
- RoomServer.RoomCore.Announce: members are told in an unspecified order, where the source uses the order of joining.
- BeaconSource.SecretSource.ChainAt: the copies that `slice` makes for callers are values here, so aliasing with the caller is not expressible.
- ManualSdp.DecodeManualSdpWire: text is a sequence of Unicode scalar values; unpaired surrogates, which the platform encoder replaces, are not expressible.
