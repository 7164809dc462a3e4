# Verified models of the consensus projects

Dafny models of seven protocol cores from a collection of distributed-systems projects, with proofs about
every run, every input or every reachable state. `dafny verify dfyconfig.toml` checks the whole project.

| files | models |
|---|---|
| `Quorums` | counting: sets of voters by size and by power, and the correct member two quorums share |
| `Ibft*` | the Istanbul BFT node in Go: rounds, prepared certificates, round-change justification, certificates |
| `RoundRobin`, `LockedVoting`, `Tendermint*` | the Tendermint node in Python: weighted votes, eight rules, locks, timers, weighted proposer rotation |
| `HotStuff*` | Basic HotStuff in Go: block tree, votes, certificates, locks, ordered execution, the bank |
| `Sticky*` | the Tendermint variant in Rust whose locks only a new prevote quorum replaces |
| `Coordinator*` | the replicated command processor in C#: rows, audit trail, applied commands |
| `Nbft*` | the NBFT vote ledger, hash-ring groups and commit proof in Python |
| `Pbft*` | the PBFT new-view decision procedure in Go |

A node whose methods update fields is a `class`. Its methods are proved against functions or relations on a
value that mirrors the fields, and the properties of whole runs are proved about those. A run is a sequence of
steps: deliveries, timeouts and local actions of correct nodes in any order, and steps of faulty nodes. A faulty
node may sign and send anything under its own identity; what a correct node signs cannot be made up.

## Results that differ from what the code intends

Each of these is kept as the code has it, shown by an input, and paired with the condition under which the
intended property holds.

- **IBFT, ties between prepared claims.** `HighestPrepared` walks a Go map, and JustifyRoundChange and
  JustifyPrePrepare walk it separately. If two ROUND-CHANGEs claim different values in the highest prepared
  round, the first walk may pick the value with a prepare quorum and the second the other one. So a single faulty
  validator breaks agreement in a system of any size, and all runs agree exactly when nobody is faulty
  (`IbftTie.AgreementExactly`). With faulty validators, agreement and lock-in hold when every accepted PRE-PREPARE
  passes both checks under one walk, as every tie-free one does (`TieFreeIsOneWalk`). A tie makes the answer depend on
  the order (`TieMakesOrderMatter`), its absence makes it independent (`TieFreeOrderIrrelevant`), and in the reachable
  states of all runs a justified set is free of ties exactly when every value it lets through is supported.
- **Tendermint in Python, configuration check.** The check asks for total power above 3f while the quorum is fixed at
  2f+1. With faulty power at most f, all runs agree exactly when the correct nodes cannot be split into two parts that
  both reach 2f+1 together with the faulty nodes (`TendermintSplit.AgreementExactly`); for equal powers, exactly when n
  plus the number of faulty nodes is below 2(2f+1). The powers 3, 2, 1, 1 with f = 1 of the
  repository's weighted crash scenario can be split even when all nodes are correct.
- **HotStuff, replay of buffered messages.** Entering a view replays its buffered messages without looking at the
  view again, and a COMMIT message overwrites the lock whatever its view. A buffered DECIDE followed by the COMMIT of
  the same view takes a newer lock back, and two correct replicas can execute conflicting nodes
  (`HotStuffReplay.ConflictingCommits`: a run of handler calls with authentic senders, in which the two messages come
  from a correct leader and merely arrive in the wrong order). As long as no call of a handler finds a PREPARE or
  COMMIT buffered behind a DECIDE of its view, commits never conflict (`HotStuffCallRuns.TidyCommitsAgree`).
- **HotStuff, the bank.** Balances are 64-bit; money is conserved and no balance turns negative exactly as long as
  no credited account overflows; a single large loan does it (`HotStuffBank.LargeLoanOverflows`).
- **Coordinator.** A request to cancel a running experiment is forgotten exactly when a recovery at startup takes effect
  and an assignment follows it; otherwise the experiment can only end cancelled.
- **NBFT.** A round's ledger keeps its grouping while messages are judged by the current one, so after a regrouping a
  node can be counted both in a group and as ungrouped. The COMMITs of a lasting representative all pass the primary
  exactly when at most E nodes of the ledger's groups are ungrouped in a later grouping; a ring that leaves nobody
  ungrouped is safe.
- **PBFT.** The decision procedure walks a Go map. Its outcome is independent of the order exactly up to 2f+1
  view-changes; a NEW-VIEW built from more may be rejected by a correct backup with the same view-changes, even when
  all of them are what correct replicas and at most f faulty ones can send.

## Modelling decisions

- Validators, replicas and nodes are numbered 0..n-1. Identifiers of values, hashes and digests are injective terms:
  a HotStuff hash is the term of its parent and command, so it determines its ancestors; a signature names what it
  signs; the digest of a PBFT view-change is the message.
- IBFT signatures cover a message and the headers of what it carries, not the nested signatures, so that a faulty node
  may reassemble more than in the code. One instance (the lambda of the source) is modelled, started once per node.
- Tendermint heights are those below `num_heights`; a node takes the values it invents from a given sequence, one after
  another, and the block of a new proposal in the Rust variant is a parameter.
- In HotStuff runs a correct replica may be handed any message in anybody's name; only vote shares are authentic. Runs
  of single actions let replicas act in any order; runs of handler calls let them act only as their handlers do. In
  authentic runs the transport stamps the senders, and faulty replicas combine only shares that were sent to them.
  `early` in the run state is a history variable: the prepare votes cast before their signer was locked in that view.
- `decided` in the runs of the Rust variant records what the code only logs.
- Integers are unbounded except the balances and amounts of the HotStuff bank.

## Model

| member | source | states |
|---|---|---|
| IbftRuns.Agreement | t1_2/minja mrdjen/istanbul-bft-consensus/internal/ibft/node.go:351-527 | In every run with at most (n-1)/3 faulty validators whose accepted PRE-PREPAREs pass both checks under one walk of the map, two correct nodes never decide different values, at whatever moments and whether by COMMIT quorum or by certificate; refused messages may be anything |
| IbftRuns.LockIn | t1_2/minja mrdjen/istanbul-bft-consensus/internal/ibft/justification.go:31-121 | Once a quorum has signed COMMIT for v in a round of such a run, every PRE-PREPARE of a later round that passes both checks under one walk carries v |
| IbftTie.AgreementExactly | t1_2/minja mrdjen/istanbul-bft-consensus/internal/ibft/justification.go:9-29 | In a system of n validators, at most (n-1)/3 of them faulty, no two correct nodes ever decide different values in any run if and only if no validator is faulty |
| IbftTie.NoFaultsCalm | t1_2/minja mrdjen/istanbul-bft-consensus/internal/ibft/justification.go:175-201 | Without faulty validators every accepted PRE-PREPARE passes both checks under one walk, since every claim was sent with a quorum of PREPAREs and prepare quorums of one round agree |
| IbftTie.Disagreement | t1_2/minja mrdjen/istanbul-bft-consensus/internal/ibft/justification.go:9-29 | For every n and every set of at most (n-1)/3 faulty validators with at least one member: a complete run of the program's steps in which two correct nodes decide different values, because the two scans of one tied ROUND-CHANGE map see it in different orders |
| IbftRuns.TieFreeExactlyWhenSupported | t1_2/minja mrdjen/istanbul-bft-consensus/internal/ibft/justification.go:85-121 | In every reachable state of every run a justified ROUND-CHANGE set is tie-free if and only if every value that some scan order lets through was prepared by a quorum in the highest claimed round |
| IbftJustification.TieFreeOrderIrrelevant | t1_2/minja mrdjen/istanbul-bft-consensus/internal/ibft/justification.go:175-201 | Without a tie, the answer to a PRE-PREPARE does not depend on the order of any map |
| IbftJustification.TieFreeIsOneWalk | t1_2/minja mrdjen/istanbul-bft-consensus/internal/ibft/justification.go:175-201 | A tie-free PRE-PREPARE that the two walks may accept is one that a single walk accepts |
| IbftJustification.TieMakesOrderMatter | t1_2/minja mrdjen/istanbul-bft-consensus/internal/ibft/justification.go:175-201 | With a tie under a justified set, a proposal of a tied value is accepted under one order and refused under another |
| IbftJustification.FirstTopClaimWins | t1_2/minja mrdjen/istanbul-bft-consensus/internal/ibft/justification.go:9-29 | A scan returns the first of the top claims in its order, so every top claim is the answer of some order |
| IbftJustification.HighestPrepared | t1_2/minja mrdjen/istanbul-bft-consensus/internal/ibft/justification.go:9-29 | The result is a claim of the highest prepared round among the messages, or nothing exactly when nobody claims to be prepared |
| IbftJustification.CountPrepareQuorum | t1_2/minja mrdjen/istanbul-bft-consensus/internal/ibft/justification.go:85-121 | The distinct senders of valid PREPAREs for the pair, over all attached lists, counted against the quorum |
| IbftJustification.JustifyRoundChange | t1_2/minja mrdjen/istanbul-bft-consensus/internal/ibft/justification.go:31-83 | The answer lies between what every scan order accepts and what some scan order accepts |
| IbftJustification.JustifyPrePrepare | t1_2/minja mrdjen/istanbul-bft-consensus/internal/ibft/justification.go:175-201 | Round 1 needs nothing; later rounds need a justified set whose highest prepared value, if any, is the proposed one, up to scan order |
| IbftJustification.RoundChangesFrom | t1_2/minja mrdjen/istanbul-bft-consensus/internal/ibft/justification.go:161-173 | The map rebuilt from a list keeps the last message of each sender |
| IbftRuns.CorrectQuorumJustifies | t1_2/minja mrdjen/istanbul-bft-consensus/internal/ibft/node.go:529-584 | In every run, a quorum of ROUND-CHANGEs of correct nodes passes JustifyRoundChange under every map order and is tie-free, since a correct prepared node always attaches a full prepare quorum |
| IbftRuns.ProposalAccepted | t1_2/minja mrdjen/istanbul-bft-consensus/internal/ibft/node.go:135-208 | In every run, the PRE-PREPARE a leader builds from such a set passes JustifyPrePrepare at every node, at every later moment |
| IbftRuns.ListingRoundTrip | t1_2/minja mrdjen/istanbul-bft-consensus/internal/ibft/justification.go:151-173 | A map turned into a list and back is the same map |
| IbftRuns.RunKeeps | t1_2/minja mrdjen/istanbul-bft-consensus/internal/ibft/node.go:256-310 | Every reachable state of every run, tied PRE-PREPAREs included, satisfies the invariant: one PREPARE and one COMMIT per round and correct node, COMMITs backed by a prepare quorum, truthful ROUND-CHANGEs, monotone rounds, decisions backed by a commit quorum |
| IbftRuns.StepKeeps | t1_2/minja mrdjen/istanbul-bft-consensus/internal/ibft/node.go:256-310 | Each delivery, timeout, request or faulty signature preserves that invariant |
| IbftRuns.CalmRunKeeps | t1_2/minja mrdjen/istanbul-bft-consensus/internal/ibft/node.go:351-391 | If accepted PRE-PREPAREs pass under one walk, every PREPARE of a correct node also stems from a justified proposal whose claimed value a quorum prepared |
| IbftSafety.CommittedValueStays | t1_2/minja mrdjen/istanbul-bft-consensus/internal/ibft/node.go:351-527 | After a commit quorum for v, every prepare quorum of a later round is for v (induction over rounds) |
| IbftSafety.PrepareQuorumUnique | t1_2/minja mrdjen/istanbul-bft-consensus/internal/ibft/node.go:393-436 | Two prepare quorums of one round are for one value |
| IbftMessages.QuorumArithmetic | t1_2/minja mrdjen/istanbul-bft-consensus/internal/ibft/quorum.go:3-14 | Two quorums overlap in more validators than may be faulty, for every n |
| IbftNode.Node.Propose | t1_2/minja mrdjen/istanbul-bft-consensus/internal/ibft/node.go:135-208 | A leader proposes at most once per round, its own input or the value of a highest prepared claim, with the ROUND-CHANGEs attached |
| IbftNode.Node.HandlePrePrepare | t1_2/minja mrdjen/istanbul-bft-consensus/internal/ibft/node.go:351-391 | Only a justified proposal of the leader of the current round is accepted, once per round, and answered with one PREPARE |
| IbftNode.Node.HandlePrepare | t1_2/minja mrdjen/istanbul-bft-consensus/internal/ibft/node.go:393-436 | The vote is recorded; on a quorum in the current round the node becomes prepared and sends its one COMMIT |
| IbftNode.Node.HandleCommit | t1_2/minja mrdjen/istanbul-bft-consensus/internal/ibft/node.go:492-527 | The vote is recorded; on a quorum the node decides and keeps the votes as its certificate |
| IbftNode.Node.HandleRoundChange | t1_2/minja mrdjen/istanbul-bft-consensus/internal/ibft/node.go:603-667 | f+1 ROUND-CHANGEs for a higher round pull the node into it; a justified quorum makes the leader of that round propose |
| IbftNode.Node.HandleDecisionCertificate | t1_2/minja mrdjen/istanbul-bft-consensus/internal/ibft/node.go:693-726 | A node decides on a certificate exactly when it holds a quorum of distinct valid COMMITs for one round and value |
| IbftNode.Node.HandleMessage | t1_2/minja mrdjen/istanbul-bft-consensus/internal/ibft/node.go:256-310 | The whole dispatch, with invalid, foreign and late messages, as one relation between old state, message, new state and output |
| IbftNode.ValidateCommitCertificate | t1_2/minja mrdjen/istanbul-bft-consensus/internal/ibft/node.go:450-490 | True exactly for a list whose messages are valid COMMITs for one round and value from a quorum of distinct senders |
| IbftNode.Node.EnterRound | t1_2/minja mrdjen/istanbul-bft-consensus/internal/ibft/node.go:546-560 | A new round forgets the accepted proposal and keeps the prepared certificate |
| IbftNode.Node.RequestRoundChange | t1_2/minja mrdjen/istanbul-bft-consensus/internal/ibft/node.go:586-601 | Rounds only grow, and the announcement carries the prepared certificate with its votes |
| IbftNode.Node.OnTimeout | t1_2/minja mrdjen/istanbul-bft-consensus/internal/ibft/timeout.go:34-55 | An undecided node moves to the next round and announces it |
| TendermintRuns.Agreement | t1_1/tamara stankovic/tendermint-tamara/node.py:302-427 | If the correct nodes cannot be split into two parts that both reach power 2f+1 together with the faulty nodes, two correct nodes never decide different values at a height below num_heights, over all rounds, timeouts and round skips, at any two moments of any run |
| TendermintSplit.AgreementExactly | t1_1/tamara stankovic/tendermint-tamara/config.py:64-72 | For all powers, with faulty power at most f: agreement holds in every run if and only if the correct nodes cannot be split so |
| TendermintSplit.EqualPowersExactly | t1_1/tamara stankovic/tendermint-tamara/config.py:64-72 | With equal powers and at most f faulty nodes: if and only if n plus the number of faulty nodes is below 2(2f+1) |
| TendermintSplit.SplitQuorums | t1_1/tamara stankovic/tendermint-tamara/node.py:95-99 | With equal powers beyond that bound the correct nodes can be split |
| TendermintSplit.Disagreement | t1_1/tamara stankovic/tendermint-tamara/config.py:64-72 | For all powers and every such split: a run, with a total power that passes the configuration check, in which one part decides in round 0 and the other votes nil until a round led by itself or a faulty node and decides a different value there |
| TendermintSplit.BoundSuffices | t1_1/tamara stankovic/tendermint-tamara/node.py:95-99 | If total power plus faulty power is below 2(2f+1), agreement holds in every run |
| TendermintRuns.RoundEntry | t1_1/tamara stankovic/tendermint-tamara/node.py:279-284 | With faulty power at most f, the first correct node above round r at a height got there by its precommit timer of round r, with a precommit quorum of round r in its own log |
| TendermintRuns.SkipFollows | t1_1/tamara stankovic/tendermint-tamara/node.py:429-448 | A round skip follows an earlier correct node that was in that round: faulty messages alone never cause one |
| TendermintRuns.RunKeeps | t1_1/tamara stankovic/tendermint-tamara/node.py:289-463 | Invariant of every reachable state: one prevote per round, precommits proved by prevote quorums, locks as recent as every precommit, decisions backed by precommit quorums |
| TendermintRuns.FiringReady | t1_1/tamara stankovic/tendermint-tamara/node.py:302-448 | Each of the eight rules only sends what the lock and the votes seen permit |
| TendermintRuns.LogQuorum | t1_1/tamara stankovic/tendermint-tamara/node.py:138-160 | A quorum seen in a log is a quorum of sent votes |
| TendermintNode.RuleDecreases | t1_1/tamara stankovic/tendermint-tamara/node.py:302-463 | Every rule that reports a change strictly lowers the measure (heights left in the log, rounds left, steps left, unfired flags) |
| TendermintNode.ChainDecreases | t1_1/tamara stankovic/tendermint-tamara/node.py:289-300 | Any sequence of rule firings lowers the measure, so none is infinite for a fixed inbox |
| TendermintNode.Node.RunRules | t1_1/tamara stankovic/tendermint-tamara/node.py:486-501 | The loop stops; it stops because no rule is enabled or because the guard of 1000 passes was reached, and what it did is a chain of rule firings, each proposal taking its own new value |
| TendermintNode.Node.TryRules | t1_1/tamara stankovic/tendermint-tamara/node.py:289-300 | One pass tries the eight rules in order; no change is reported exactly when none was enabled, and no invented value is used twice |
| TendermintNode.Node.RuleProposalInitial | t1_1/tamara stankovic/tendermint-tamara/node.py:302-314 | Prevote on a fresh proposal: the value if valid and compatible with the lock, else nil |
| TendermintNode.Node.RuleProposalWithVr | t1_1/tamara stankovic/tendermint-tamara/node.py:316-334 | Prevote on a re-proposal with a prevote quorum at its valid round, unlocking older locks only |
| TendermintNode.Node.RuleLockPrecommit | t1_1/tamara stankovic/tendermint-tamara/node.py:348-370 | On a prevote quorum for the valid proposal: lock and precommit while in the prevote step, and always record the valid value |
| TendermintNode.Node.RuleDecide | t1_1/tamara stankovic/tendermint-tamara/node.py:391-427 | Decide in the least round whose proposal has a precommit quorum, then start the next height without locks and flags |
| TendermintNode.Node.RuleRoundSkip | t1_1/tamara stankovic/tendermint-tamara/node.py:429-448 | Skip to a higher round in which senders with power f+1 were heard |
| TendermintNode.Node.OnTimer | t1_1/tamara stankovic/tendermint-tamara/node.py:247-287 | An expired timer is removed and acts only if its height, round and step still hold |
| TendermintNode.Node.StartRound | t1_1/tamara stankovic/tendermint-tamara/node.py:215-233 | The proposer offers its valid value or the next new one; everyone else arms the propose timer |
| TendermintNode.CollectVoters | t1_1/tamara stankovic/tendermint-tamara/node.py:138-151 | The distinct senders of matching votes |
| RoundRobin.Proposer | t1_1/tamara stankovic/tendermint-tamara/node.py:104-124 | The loop computes the leader of step height+round of the weighted rotation |
| RoundRobin.Fairness | t1_1/tamara stankovic/tendermint-tamara/node.py:104-124 | Over the first total-power steps every node leads exactly as often as its power says, and all priorities are zero again |
| RoundRobin.Periodic | t1_1/tamara stankovic/tendermint-tamara/node.py:104-124 | The schedule repeats with period total power |
| RoundRobin.EqualPowersRotate | t1_1/tamara stankovic/tendermint-tamara/node.py:104-124 | With equal powers the leader of step k is k mod n |
| RoundRobin.PriorityIsEarnedMinusPaid | t1_1/tamara stankovic/tendermint-tamara/node.py:110-123 | A priority is the power earned minus the total paid per turn as leader |
| LockedVoting.PrecommittedStays | t1_1/tamara stankovic/tendermint-tamara/node.py:302-370 | Votes cast under the lock discipline: after a precommit quorum no later round has a prevote quorum for another value |
| LockedVoting.PrecommitsAgree | t1_1/tamara stankovic/tendermint-tamara/node.py:391-427 | Two precommit quorums of one height are for one value |
| LockedVoting.OverlappingExactly | t1_1/tamara stankovic/tendermint-tamara/node.py:95-99 | Any two quorums share a correct voter if and only if the correct voters cannot be split into two parts that both are quorums together with the faulty ones |
| HotStuffSafety.NoConflictingCommits | t1_3/ognjen peric/HotStuffBFT/node.go:316-392 | With at most f faulty replicas and no correct replica handling a PREPARE or COMMIT older than its lock, or a COMMIT older than one of its prepare votes, two verifiable COMMIT certificates certify nodes of one branch |
| HotStuffCallRuns.TidyCommitsAgree | t1_3/ognjen peric/HotStuffBFT/node.go:182-208 | The same for runs made of handler calls, on a condition on the buffers alone: no call finds a PREPARE or COMMIT buffered behind a DECIDE of its view |
| HotStuffCallRuns.TidyExecutionsComparable | t1_3/ognjen peric/HotStuffBFT/node.go:568-623 | Under that condition the executed command sequences of any two correct replicas, at any two moments, are prefixes of one another |
| HotStuffCallRuns.CallRunIsRun | t1_3/ognjen peric/HotStuffBFT/node.go:182-208 | Every run of handler calls is a run of single actions through the same states, so that what all runs keep holds there too; a tidy one handles PREPARE and COMMIT messages in their own view |
| HotStuffCallRuns.CarriedOut | t1_3/ognjen peric/HotStuffBFT/node.go:182-208 | Whatever a handler may do with genuine votes is a possible step of the run |
| HotStuffCalls.AnswersInTime | t1_3/ognjen peric/HotStuffBFT/node.go:603-623 | A call that finds tidy buffers handles no message before its view, and PREPARE and COMMIT messages in their view, through all nested view changes |
| HotStuffCalls.AnswersLeads | t1_3/ognjen peric/HotStuffBFT/node.go:182-208 | Whatever a call does, nested replays included, is a sequence of the replica's single actions |
| HotStuffSafety.TimelyIsForward | t1_3/ognjen peric/HotStuffBFT/node.go:195-201 | Handling PREPARE and COMMIT messages in their own view keeps lock and votes at or behind the view, so that nothing older than either is handled |
| HotStuffSafety.ExecutedChainsComparable | t1_3/ognjen peric/HotStuffBFT/node.go:568-601 | In the runs of NoConflictingCommits the command sequences executed by any two correct replicas, at any two moments, are prefixes of one another |
| HotStuffSafety.OneNodePerView | t1_3/ognjen peric/HotStuffBFT/node.go:462-483 | In every run, two verifiable certificates of one type and view certify the same node |
| HotStuffSafety.Ladder | t1_3/ognjen peric/HotStuffBFT/node.go:345-392 | In every run, a COMMIT certificate stands on quorums for PRE-COMMIT and PREPARE of the same node and view |
| HotStuffReplay.ConflictingCommits | t1_3/ognjen peric/HotStuffBFT/node.go:603-623 | A run of four replicas, one faulty, made of handler calls only, with correct leaders in views 2 and 3 and no message in a correct replica's name that it did not send, after which two correct replicas have executed conflicting nodes |
| HotStuffReplay.LockTakenBack | t1_3/ognjen peric/HotStuffBFT/node.go:359-369 | The cause: with the DECIDE of view 2, as its leader sent it, buffered ahead of the COMMIT of view 2, the timeout handler performs a replay after which the replica has voted to commit in view 3 and is locked in view 2 |
| HotStuffSteps.GatherAt | t1_3/ognjen peric/HotStuffBFT/node.go:210-278 | Three NEW-VIEWs, two of them as correct replicas sent them, make a correct leader propose its pending command on top of the reported certificate |
| HotStuffSteps.CollectAt | t1_3/ognjen peric/HotStuffBFT/node.go:394-453 | The votes of two correct replicas, as sent to the leader, and one of the faulty replica make a correct leader form their certificate and send the next phase's message to all |
| HotStuffSafety.ExecutionIsFold | t1_3/ognjen peric/HotStuffBFT/node.go:568-601 | In every reachable state the bank is the fold of Execute over the branch up to the last executed node without repeated command IDs, the commands folded have distinct IDs, and the seen IDs are those of the branch |
| HotStuffSafety.ExecutedOnlyProlonged | t1_3/ognjen peric/HotStuffBFT/node.go:568-601 | The last executed node only ever moves to a descendant |
| HotStuffSafety.MoneyConserved | t1_3/ognjen peric/HotStuffBFT/state_machine.go:31-86 | While the executed loans fit 64 bits, no balance of a reachable bank is negative and the total is the initial money plus the approved loans |
| HotStuffSafety.TreesSound | t1_3/ognjen peric/HotStuffBFT/node.go:494-539 | Every reachable tree is closed under parents, acyclic and rooted in the genesis node |
| HotStuffSafety.FullQuorumIsAnnounced | t1_3/ognjen peric/HotStuffBFT/node.go:394-453 | The vote that completes a quorum always yields a certificate, and its announcement passes the check of every replica that can obtain the node |
| HotStuffSafety.CalmRunKeeps | t1_3/ognjen peric/HotStuffBFT/node.go:195-201 | Invariant of those runs: locks cover all commit votes, and prepare votes cast before the lock reached their view are backed by a certificate at least as recent as every earlier commit vote |
| HotStuffRuns.RunKeeps | t1_3/ognjen peric/HotStuffBFT/node.go:182-208 | Invariant of all runs: one vote per phase and view, each vote above a certificate of the phase below, certified locks, closed trees, executed branch certified, genuine certificates |
| HotStuffVotes.CommittedStays | t1_3/ognjen peric/HotStuffBFT/node.go:485-492 | After a commit certificate, every prepare certificate of a later view certifies a descendant (induction over views) |
| HotStuffVotes.CertifiedByEarlyVotes | t1_3/ognjen peric/HotStuffBFT/node.go:316-369 | A prepare certificate always consists of votes cast before their signers were locked in that view |
| HotStuffVotes.CertificatesOfOneViewAgree | t1_3/ognjen peric/HotStuffBFT/node.go:462-483 | One vote per phase and view makes certificates unique |
| HotStuffCrypto.ThresholdVerifier.Combine | t1_3/ognjen peric/HotStuffBFT/crypto.go:99-141 | Succeeds exactly on a quorum of shares that are filed under their signers and verify, and then registers exactly that record |
| HotStuffCrypto.ThresholdVerifier.VerifyQC | t1_3/ognjen peric/HotStuffBFT/crypto.go:143-166 | True exactly when the token names a registered record of the same type, view and node with a quorum of verifying shares |
| HotStuffCrypto.VerifiedIsCertified | t1_3/ognjen peric/HotStuffBFT/crypto.go:143-166 | A certificate that verifies stands for a quorum of distinct signers of that very vote |
| HotStuffCrypto.CombinedVerifies | t1_3/ognjen peric/HotStuffBFT/crypto.go:99-166 | Combine then verify succeeds, and nothing that verified before stops verifying |
| HotStuffTree.GrownAddsBranch | t1_3/ognjen peric/HotStuffBFT/node.go:509-539 | Obtaining a node adds exactly its missing ancestors, keeps every old entry and keeps the tree closed |
| HotStuffWalk.MissingIsBranch | t1_3/ognjen peric/HotStuffBFT/node.go:517-538 | The fetching walk with its visited set succeeds exactly when the whole branch is obtainable, and plants that branch |
| HotStuffWalk.TraceIsAncestry | t1_3/ognjen peric/HotStuffBFT/node.go:549-565 | In a closed tree the upward walk succeeds exactly for ancestors and passes exactly the commands between the two nodes |
| HotStuffEffects.ExtendsFromIsExtends | t1_3/ognjen peric/HotStuffBFT/node.go:541-566 | For known nodes the ancestry check decides the ancestor relation, both ways |
| HotStuffReplica.Node.EnsureNode | t1_3/ognjen peric/HotStuffBFT/node.go:509-539 | All or nothing: the whole missing branch is added, or the tree is unchanged and the answer is false |
| HotStuffReplica.Node.ExtendsFromLocked | t1_3/ognjen peric/HotStuffBFT/node.go:541-566 | Terminates and answers the ancestor question, with its lookups in the tree |
| HotStuffReplica.Node.AcceptNode | t1_3/ognjen peric/HotStuffBFT/node.go:494-507 | A node enters tree and store exactly when it carries its own hash, has an ID and its parent can be obtained |
| HotStuffReplica.Node.SendVote | t1_3/ognjen peric/HotStuffBFT/node.go:462-483 | At most one signed vote per phase and view |
| HotStuffReplica.Node.SafeNodeLocked | t1_3/ognjen peric/HotStuffBFT/node.go:485-492 | The safety or the liveness rule against the lock |
| HotStuffReplica.Node.ProcessPrepare | t1_3/ognjen peric/HotStuffBFT/node.go:316-343 | Every branch of the proposal handler, with what each early exit leaves in the tree |
| HotStuffReplica.Node.ProcessPreCommit | t1_3/ognjen peric/HotStuffBFT/node.go:345-357 | The newest prepare certificate is kept and one PRE-COMMIT vote signed |
| HotStuffReplica.Node.ProcessCommit | t1_3/ognjen peric/HotStuffBFT/node.go:359-369 | The lock is overwritten whatever its view, and one COMMIT vote signed |
| HotStuffReplica.Node.ExecuteThrough | t1_3/ognjen peric/HotStuffBFT/node.go:568-601 | Executes exactly the commands between the last executed node and the committed descendant, or changes nothing but the tree |
| HotStuffReplica.Node.ProcessLeaderVote | t1_3/ognjen peric/HotStuffBFT/node.go:394-453 | Votes are counted once per signer; a quorum forms one certificate and one broadcast |
| HotStuffReplica.Node.TryPropose | t1_3/ognjen peric/HotStuffBFT/node.go:237-278 | At most one proposal per view, on top of a certificate of the highest reported view, with the first pending command not executed |
| HotStuffReplica.Node.EnterView | t1_3/ognjen peric/HotStuffBFT/node.go:603-623 | Terminates through all nested view changes: exactly the batch buffered for the new view is replayed in order, a DECIDE that executes enters the next view and replays its batch before the rest, and a proposal is tried at the end of each entry |
| HotStuffReplica.Node.Replay | t1_3/ognjen peric/HotStuffBFT/node.go:614-621 | Each message of the batch, in order, is counted or handled in whatever view the replica is by then |
| HotStuffReplica.Node.ProcessReplicaMessage | t1_3/ognjen peric/HotStuffBFT/node.go:299-314 | The handler of its kind, followed by the next view exactly when a valid DECIDE for a descendant of the last executed node was handled |
| HotStuffReplica.Node.HandleMessage | t1_3/ognjen peric/HotStuffBFT/node.go:182-208 | The view filter: which message is refused, kept, buffered, dropped, counted or handled, with everything that follows from it |
| HotStuffReplica.Node.HandleTimeout | t1_3/ognjen peric/HotStuffBFT/node.go:172-180 | A timeout of the current view enters the next one; any other does nothing |
| HotStuffReplica.Node.HandleClientCommand | t1_3/ognjen peric/HotStuffBFT/node.go:158-170 | A new command is queued once and a proposal tried |
| HotStuffReplica.Network.StoreNode | t1_3/ognjen peric/HotStuffBFT/network.go:175-184 | The first node stored under a hash stays |
| HotStuffBank.StateMachine.Execute | t1_3/ognjen peric/HotStuffBFT/state_machine.go:31-86 | The new state and the answer for every command kind, with two's-complement balances |
| HotStuffBank.SoundExactlyWithoutOverflow | t1_3/ognjen peric/HotStuffBFT/state_machine.go:37-81 | From a sound bank, money is conserved and balances stay non-negative if and only if the credited account does not overflow |
| HotStuffBank.HistorySoundExactlyWithoutOverflow | t1_3/ognjen peric/HotStuffBFT/state_machine.go:31-86 | The same over every prefix of every command history |
| HotStuffBank.LargeLoanOverflows | t1_3/ognjen peric/HotStuffBFT/state_machine.go:65-81 | An overflowing input: one loan of the largest amount to a new bank's account makes its balance negative |
| HotStuffBank.ModestLoansKeepSound | t1_3/ognjen peric/HotStuffBFT/state_machine.go:65-81 | Loan requests that fit 64 bits together with the initial money never overflow an account |
| HotStuffBank.ApplyingIsFolding | t1_3/ognjen peric/HotStuffBFT/node.go:592-599 | Executing command by command with a seen set equals folding over the first occurrences |
| StickyRuns.Agreement | t1_3/aleksa naglic/tendermint-sim/src/consensus.rs:87-203 | With fewer than a third faulty nodes and authentic senders, no two nodes reach Commit with different values at one height in any run |
| StickyRuns.CommitIsFinal | t1_3/aleksa naglic/tendermint-sim/src/consensus.rs:134-203 | After a commit no round from then on gathers a prevote quorum for another value at that height |
| StickyRuns.RunKeeps | t1_3/aleksa naglic/tendermint-sim/src/consensus.rs:87-268 | Invariant of every reachable state: tables hold only votes of the current height and round, locks rest on prevote quorums and are as recent as every precommit |
| StickyRuns.ThirdOverlaps | t1_3/aleksa naglic/tendermint-sim/src/consensus.rs:141-141 | Quorums of 2n/3+1 overlap in a correct node when fewer than a third are faulty |
| StickyRuns.TallyIsQuorum | t1_3/aleksa naglic/tendermint-sim/src/consensus.rs:150-156 | A count over the table of one round is a quorum of distinct voters |
| StickyTendermint.ConsensusState.HandleProposal | t1_3/aleksa naglic/tendermint-sim/src/consensus.rs:87-132 | One prevote per round: the value, or nil when locked on another value or when the cited valid round cannot be confirmed |
| StickyTendermint.ConsensusState.HandleVote | t1_3/aleksa naglic/tendermint-sim/src/consensus.rs:134-203 | Filing, lock and precommit on a prevote quorum, commit or next round on a precommit quorum |
| StickyTendermint.ConsensusState.HandleTimeout | t1_3/aleksa naglic/tendermint-sim/src/consensus.rs:223-268 | The four step transitions; a new height drops all locks |
| StickyTendermint.ConsensusState.StartRound | t1_3/aleksa naglic/tendermint-sim/src/consensus.rs:44-81 | The table of the round is cleared; the proposer offers its valid value first |
| StickyTendermint.ConsensusState.CountFor | t1_3/aleksa naglic/tendermint-sim/src/consensus.rs:152-154 | The number of collected votes for a value |
| CoordinatorLog.EventsTellState | t1_1/emina demirovic/distributed-experiment-platform/src/Coordinator/Commands/CoordinatorCommandProcessor.cs:50-763 | For every command sequence, folding an experiment's events gives its status, attempt, cancellation flag and, while running, its worker |
| CoordinatorLog.OneEffectPerId | t1_1/emina demirovic/distributed-experiment-platform/src/Coordinator/Commands/CoordinatorCommandProcessor.cs:765-819 | No two commands with one ID both take effect |
| CoordinatorLog.RedeliveryAnswered | t1_1/emina demirovic/distributed-experiment-platform/src/Coordinator/Commands/CoordinatorCommandProcessor.cs:765-804 | A command delivered again changes nothing and is answered with the experiment's current row |
| CoordinatorLog.CompletionIsFenced | t1_1/emina demirovic/distributed-experiment-platform/src/Coordinator/Commands/CoordinatorCommandProcessor.cs:292-325 | A completion takes effect if and only if its worker holds the latest unrevoked assignment under its attempt number, its cancellation claim is right and both its keys are new |
| CoordinatorLog.OneWorkerPerAttempt | t1_1/emina demirovic/distributed-experiment-platform/src/Coordinator/Commands/CoordinatorCommandProcessor.cs:177-222 | The attempt counts the Assigned events, and their attempt numbers strictly rise, so no two assignments share one |
| CoordinatorLog.TerminalIsAbsorbing | t1_1/emina demirovic/distributed-experiment-platform/src/Coordinator/Commands/CoordinatorCommandProcessor.cs:386-464 | Once terminal, neither the row nor the event list of an experiment ever changes |
| CoordinatorLog.RequestForgottenExactly | t1_1/emina demirovic/distributed-experiment-platform/src/Coordinator/Commands/CoordinatorCommandProcessor.cs:177-222 | For all command sequences: the cancellation flag of a running experiment is cleared if and only if a recovery at startup takes effect on it and, after that, an assignment |
| CoordinatorLog.RequestSurvives | t1_1/emina demirovic/distributed-experiment-platform/src/Coordinator/Commands/CoordinatorCommandProcessor.cs:355-487 | Otherwise the flag stands, and the experiment can end in no way but cancelled |
| CoordinatorLog.ChangeKeepsLog | t1_1/emina demirovic/distributed-experiment-platform/src/Coordinator/Commands/CoordinatorCommandProcessor.cs:386-734 | Every accepted command extends a log that explains its row to one that explains the new row |
| CoordinatorLog.RunKeeps | t1_1/emina demirovic/distributed-experiment-platform/src/Coordinator/Commands/CoordinatorCommandProcessor.cs:11-48 | Invariant of every reachable database: logs explain rows, k-th assignment carries attempt k, a final event is last, event keys are distinct |
| CoordinatorLog.RestartForgetsCancellation | t1_1/emina demirovic/distributed-experiment-platform/src/Coordinator/Commands/CoordinatorCommandProcessor.cs:699-727 | A sequence of five commands from the empty database after which a requested cancellation is gone and the experiment runs again |
| Coordinator.CoordinatorCommandProcessor.Apply | t1_1/emina demirovic/distributed-experiment-platform/src/Coordinator/Commands/CoordinatorCommandProcessor.cs:11-48 | One transaction per command: the whole new database and the answer, or no change at all |
| Coordinator.CoordinatorCommandProcessor.ApplyCreate | t1_1/emina demirovic/distributed-experiment-platform/src/Coordinator/Commands/CoordinatorCommandProcessor.cs:50-154 | A new row, or the answer to a reused ID whatever command used it first |
| Coordinator.CoordinatorCommandProcessor.ApplyAssign | t1_1/emina demirovic/distributed-experiment-platform/src/Coordinator/Commands/CoordinatorCommandProcessor.cs:156-251 | Only a pending experiment with the preceding attempt number |
| Coordinator.CoordinatorCommandProcessor.ApplyComplete | t1_1/emina demirovic/distributed-experiment-platform/src/Coordinator/Commands/CoordinatorCommandProcessor.cs:253-353 | Only the running worker, under its attempt, with a truthful cancellation claim |
| Coordinator.CoordinatorCommandProcessor.ApplyCancellation | t1_1/emina demirovic/distributed-experiment-platform/src/Coordinator/Commands/CoordinatorCommandProcessor.cs:355-487 | Pending is cancelled, running is flagged once, terminal is refused |
| Coordinator.CoordinatorCommandProcessor.ApplyRequeue | t1_1/emina demirovic/distributed-experiment-platform/src/Coordinator/Commands/CoordinatorCommandProcessor.cs:489-676 | Back to pending, or cancelled when that was requested |
| Coordinator.CoordinatorCommandProcessor.ApplyRecover | t1_1/emina demirovic/distributed-experiment-platform/src/Coordinator/Commands/CoordinatorCommandProcessor.cs:678-763 | Back to pending with the cancellation flag as it was |
| Coordinator.CoordinatorCommandProcessor.SaveChanges | t1_1/emina demirovic/distributed-experiment-platform/src/Coordinator/Commands/CoordinatorCommandProcessor.cs:811-841 | A taken event key rolls the whole transaction back |
| Coordinator.CoordinatorCommandProcessor.GetPreviouslyAppliedResult | t1_1/emina demirovic/distributed-experiment-platform/src/Coordinator/Commands/CoordinatorCommandProcessor.cs:765-804 | A reused ID is answered, or refused when type or experiment differ |
| NbftLedger.ThresholdImpliesProof | t1_3/david vucenovic/nbft/nbft/voting.py:63-84 | For all valid n and m, all partitions into groups and all additions: (R-w)m votes imply (R-w)(m-E) distinct proof signers, as long as at most E nodes were counted both in a group and as ungrouped |
| NbftOvercount.ThresholdSufficesExactly | t1_3/david vucenovic/nbft/nbft/node.py:420-451 | For a representative under the ledger's grouping and all later ones: whatever messages arrive, every COMMIT it sends passes the primary if and only if at most E nodes grouped in the ledger's grouping are ungrouped in a later one |
| NbftOvercount.ManyMovedFail | t1_3/david vucenovic/nbft/nbft/node.py:420-477 | With more such nodes, OutPrepare messages of its view after which that representative sends a COMMIT the primary refuses |
| NbftOvercount.ManyMovedFallShort | t1_3/david vucenovic/nbft/nbft/node.py:420-451 | The ledger behind it: messages that the groupings admit meet the vote threshold with too few distinct signers |
| NbftOvercount.FewMovedSuffices | t1_3/david vucenovic/nbft/nbft/node.py:420-451 | With at most E such nodes, every COMMIT passes, whatever messages arrive and whoever receives them |
| NbftOvercount.OneRegroupingSuffices | t1_3/david vucenovic/nbft/nbft/hashring.py:92-118 | In every ring whose groups leave more than E nodes over, a change of the primary regroups it so that a node representing a group before and after can be made to send a COMMIT the primary refuses |
| NbftOvercount.NobodyLeftOver | t1_3/david vucenovic/nbft/nbft/hashring.py:92-118 | In a ring whose groups leave nobody over, no regrouping can do harm |
| NbftCommit.HonestCommitPasses | t1_3/david vucenovic/nbft/nbft/node.py:453-524 | A COMMIT built from messages judged under one grouping passes the checks of the primary and, forwarded, those of every replica |
| NbftCommit.ForwardedIsAccepted | t1_3/david vucenovic/nbft/nbft/node.py:481-524 | Whatever the primary forwards, honest or not, passes every replica: counting signatures and counting signers agree |
| NbftCommit.NobodyCountedTwice | t1_3/david vucenovic/nbft/nbft/node.py:426-449 | Under one grouping the role check keeps group signers and ungrouped voters apart |
| NbftCommit.Representative.OnOutPrepare | t1_3/david vucenovic/nbft/nbft/node.py:420-451 | Only a representative in the message's view counts it, judged by the current grouping and filed by the grouping of the ledger; at most one COMMIT follows |
| NbftCommit.Representative.CheckVoteThreshold | t1_3/david vucenovic/nbft/nbft/node.py:453-477 | One COMMIT per round, with the ledger's proof and vote count |
| NbftCommit.PrimaryRound.OnCommit | t1_3/david vucenovic/nbft/nbft/node.py:481-509 | One forwarded claim per round, exactly when votes and valid signatures suffice |
| NbftLedger.VoteLedger.AddGroupAggregate | t1_3/david vucenovic/nbft/nbft/voting.py:47-53 | Members' valid signatures are merged and the best aggregate remembered |
| NbftLedger.VoteLedger.AddGroupIndividual | t1_3/david vucenovic/nbft/nbft/voting.py:55-57 | Members' valid signatures are merged |
| NbftLedger.VoteLedger.AddUngrouped | t1_3/david vucenovic/nbft/nbft/voting.py:59-61 | Counts a node that signed for itself |
| NbftLedger.VoteLedger.CountVotes | t1_3/david vucenovic/nbft/nbft/voting.py:63-70 | The sum of group votes and ungrouped votes |
| NbftLedger.VoteLedger.Proof | t1_3/david vucenovic/nbft/nbft/voting.py:75-84 | The signatures of exactly the distinct signers seen for the digest |
| NbftLedger.AdditionsKeep | t1_3/david vucenovic/nbft/nbft/voting.py:39-61 | After any additions signers belong to their group and the best aggregate is among them |
| NbftRing.MembershipPartitions | t1_3/david vucenovic/nbft/nbft/hashring.py:92-118 | The slices of the ring walk are R disjoint groups of m nodes, disjoint from the ungrouped nodes and the primary |
| NbftRing.EveryNodePlaced | t1_3/david vucenovic/nbft/nbft/hashring.py:92-118 | Every node of the ring is the primary, in a group or ungrouped |
| NbftRing.ClockwiseFrom | t1_3/david vucenovic/nbft/nbft/hashring.py:73-79 | Sorting and the search loop find the nearest candidate clockwise from the point |
| NbftRing.GroupOf | t1_3/david vucenovic/nbft/nbft/hashring.py:42-46 | The first group that holds the node, or none |
| NbftRing.SignRoundTrip | t1_3/david vucenovic/nbft/nbft/messages.py:34-45 | A signature names its signer and is valid for the digest if and only if the name has no separator; it is then valid for no other digest |
| PbftNewView.OrderIrrelevantExactly | t1_3/isidora mickovic/pbft-simulator/node/node.go:513-604 | In a system of 3f+1 replicas, the outcome of the decision procedure is independent of map order, for all sets of n view-changes that correct replicas and at most f faulty ones can send, if and only if n is at most 2f+1 |
| PbftNewView.OutcomeUnique | t1_3/isidora mickovic/pbft-simulator/node/node.go:530-600 | Up to 2f+1 view-changes determine the decisions |
| PbftNewView.OrderDecides | t1_3/isidora mickovic/pbft-simulator/node/node.go:535-576 | For every f and n from 2f+2 to 3f+1, a set of n sendable view-changes with two possible outcomes |
| PbftNewView.EveryChoicePossible | t1_3/isidora mickovic/pbft-simulator/node/node.go:535-576 | Every eligible request is chosen under some visiting order |
| PbftNewView.DecisionProcedure | t1_3/isidora mickovic/pbft-simulator/node/node.go:513-604 | The answer is one of the possible outcomes, and complete exactly when every sequence number is decided |
| PbftNewView.Choose | t1_3/isidora mickovic/pbft-simulator/node/node.go:535-576 | An eligible request if there is one |
| PbftNewView.CountA1 | t1_3/isidora mickovic/pbft-simulator/node/node.go:549-560 | The messages that prepared nothing later and nothing else in the same view |
| PbftNewView.CountA2 | t1_3/isidora mickovic/pbft-simulator/node/node.go:562-570 | The messages that pre-prepared the request in that view or later |
| PbftNewView.CountB | t1_3/isidora mickovic/pbft-simulator/node/node.go:584-596 | The messages without a P entry |
| PbftNode.BuiltFromQuorumIsAccepted | t1_3/isidora mickovic/pbft-simulator/node/node.go:629-688 | A NEW-VIEW built from exactly 2f+1 view-changes is accepted by every backup that holds them, whatever orders the two sides use |
| PbftNode.BuiltFromMoreMayBeRejected | t1_3/isidora mickovic/pbft-simulator/node/node.go:629-688 | Built from more sendable view-changes, a correct primary's message may be rejected by a backup that holds the same ones |
| PbftNode.Node.TryBuildNewView | t1_3/isidora mickovic/pbft-simulator/node/node.go:444-511 | At most one NEW-VIEW per view, from the acknowledged view-changes, naming each exactly once and listing every decision exactly once with its request; always one when the new primary has not sent it yet and the acknowledged view-changes decide every sequence number under every order |
| PbftNode.Node.TryVerifyNewView | t1_3/isidora mickovic/pbft-simulator/node/node.go:629-688 | Missing, rejected or accepted, by the backup's own run of the procedure |

## Left out

- Threads, channels, sockets, timers as durations, logging, visualisation, storage engines and serialisation: delivery and timeouts are steps that may happen at any time.
- Liveness, back-off and everything that depends on real time.
- Cryptographic primitives and text encodings, beyond the NBFT signature text, which is modelled character by character.
- Scenario switches for faulty behaviour inside the node code; faulty nodes are modelled as arbitrary senders.
- IBFT: several instances in one node, and restarting an instance.
- HotStuff: the NEW-VIEW message sent at start-up, log texts, crash flags and drop rates of the network, and the string order that breaks ties between equally high certificates (any of them may be chosen).
- HotStuffReplica.Node.Walk: the ancestry walk and the execution walk of the source are one method here, since both follow parents with a visited set.
- HotStuffSafety.NoConflictingCommits: states the property for runs in which nothing older than the lock or a prepare vote is handled; ConflictingCommits shows that it fails without that condition. A run that breaks the condition need not conflict, so there is no equivalence over runs.
- IbftRuns.Agreement: states the property for runs whose accepted PRE-PREPAREs pass under one walk; Disagreement shows that it fails otherwise. A run with an exception need not disagree, so there is no equivalence over runs.
- TendermintSplit.Disagreement: fires the rules it needs one at a time; it does not run the rule loop to its end after every message, which would also arm timers that never expire in this run.
- HotStuffReplay.ConflictingCommits: a run of four replicas; for other sizes no run is constructed, and agreement without faulty replicas is not proved separately from TidyCommitsAgree.
- StickyTendermint.ConsensusState.HandleVote: does not model a vote from outside 0..n-1, and the 32-bit overflow of twice the number of nodes; rounds and heights do not wrap.
- Coordinator: descriptive columns (times, messages, metrics, progress), the Raft log that feeds the processor, and the registry that bypasses it.
- NBFT: in-group aggregation, timeouts of representatives, view changes, execution of blocks, and agreement of the whole network at the upper tolerance bound.
- NbftRing.ClockwiseFrom: does not model which of two candidates at one position comes first.
- NbftOvercount.ThresholdSufficesExactly: assumes names without the signature separator; with one in a name its owner's signatures are never valid (SignRoundTrip).
- PBFT: the normal case, checkpoints, retransmission of view-changes, and what a replica does after accepting a NEW-VIEW.
- The other projects of the collection: their code does not decide the corresponding theorems, or would only add easier members.
