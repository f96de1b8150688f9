# zk-stf: a verified model of the HotStuff node and its ledger

zk-stf runs Basic HotStuff over a workload of ledger blocks. Every node votes for a block only after it has validated it, either by re-executing its transactions or by checking an SP1 proof of that execution. Blocks are executed once they are decided, and execution can lag behind consensus.

This project models the consensus node (`node/consensus-node`), the ledger (`crates/ledger-core`), the guest program (`zkvm/program`) and the workload generator (`zkvm/script`), and proves what they guarantee together.

## How the model is built

| file | content |
|---|---|
| Ledger, Merkle, Generator | `apply_block` as an in-place loop, the state root, the transaction generator, the guest program and the generator with resume |
| Messages, Quorum, Certificates, Ancestry | wire messages, quorum sizes, forming and checking certificates, the ancestry walk and SafeNode |
| Execution, Replica | the replica as a value: each handler and rule is a function of the state |
| Node | the replica as an object updated in place, method by method, proved equal to those functions |
| System | replicas and adversary together: a run is a sequence of worlds |
| VoteLog | which logs of signed votes the protocol allows, and agreement over such logs |
| Safety, SafetySteps, Proposals, ProposalSteps, ExecutionProofs, ExecutionOrder, Pacemaker, Duties, Progress, Halting | what every event and every rule keeps |
| Receipts, Responses | exactly what each event leaves behind and each rule does, what is never lost again, and that a pass stops only when nothing in the view is left unanswered |
| Runs, Heights, Theorems, Deliveries | induction over runs, where true heights come from, and the results stated over every run |
| LiedHeights, ForeignStart | what one lied height and one first proof from another state can do |

A turn of the main loop is one event (message, timer, validation outcome) followed by one pass of ten rules in the order of `try_advance`, unless the event aborted the process. `Nodes.ReplicaState.Serve` is that turn in imperative form and is proved to be a `Turn`, the relation that the runs of System.dfy are made of. So every result in Theorems.dfy and Deliveries.dfy is about what the object does.

Where the program iterates over a hash map the order is arbitrary: the methods pick any element, and the functions take the outcome as a parameter that a predicate (`Formed`, `Highest`, `Enumerates`) constrains to what some order could give.

## What is assumed

- At most `(n - 1) / 3` of the `n` replicas are faulty, for any `n >= 1`. Faulty replicas send anything they can build without forging a correct replica's signature.
- Channels are authenticated: a message that names a correct replica as its sender was sent by it to that receiver, and every message names one of the `n` replicas as its sender. The NEW-VIEW handler relies on the latter, since it does not look the sender up in the key map. Messages may be delayed, reordered, duplicated or lost.
- Digests and signatures are symbolic terms, so equal digests come from equal inputs. The key map holds one key per replica and does not change.
- The workload directory holds exactly the blocks that the manifest counts. Loading any other block aborts the process, and a faulty leader's proposal can cause that; `Theorems.AbortsExactly` and `Theorems.EventAbortsExactly` say exactly when a replica aborts.
- For results about execution only: heights along parent links are 0, 1, 2, ... on the branches concerned. The proposal handler does not check heights, and `LiedHeights.DecideOrderMatters` shows two replicas that end in different states because of one lied height. `Theorems.ReplicatedExecution` says exactly when executions agree. `Theorems.HonestHeightsHold` derives the condition from what arrives: it suffices that faulty leaders' proposals have true heights. `Theorems.FaultFreeExecution` has no such condition.
- For results about proof verification only: an accepted proof attests a guest run on that height's transactions over a state whose account ids lie below its padded width, and the first proof claims the right post-root. `Merkle.SparseStatesShareRoot` shows why ids must be dense. Proofs that start at genesis meet the condition on the first one, and after the first block it is exact (`Theorems.FirstVerifiedRoot`). The node does not compare the first pre-root with genesis, and `ForeignStart.ForeignStartDiverges` shows a node that ends with a wrong root. The generated workload meets all of these (`Theorems.GeneratedSound`). Without any of them the chained root is what the last executed proof claims (`Theorems.ChainedIsClaimed`).

## Where code and documentation differ

The comment on `compute_state_root` says that padding leaves are zero hashes. The code pads with the leaf hash of the account id and balance 0. The model follows the code.

## Model

| member | source | states |
|---|---|---|
| `Ledger.StateCell.Apply` | crates/ledger-core/src/lib.rs:37-49 | the in-place loop leaves the state of transferring one transaction after the other, skipping those the sender cannot pay, and returns how many took effect |
| `Ledger.ReadBack` | crates/ledger-core/src/lib.rs:25-31 | after a write the account holds the amount and every other what it held; an account never written holds 0 |
| `Ledger.TransferLaw` | crates/ledger-core/src/lib.rs:40-46 | balance by balance: a transfer between different accounts of an amount from 1 to the sender's balance moves exactly that amount, modulo 2^64 at the receiver; any other transaction changes nothing |
| `Ledger.BlockLaw` | crates/ledger-core/src/lib.rs:37-48 | each transaction of a block acts on the state that the ones before it left |
| `Ledger.CountLaw` | crates/ledger-core/src/lib.rs:38-48 | the returned count is the number, modulo 2^32, of positions whose transfer is effective in the state it meets |
| `Ledger.HashTransactions` | crates/ledger-core/src/lib.rs:86-94 | feeding the hasher transaction by transaction gives the digest of the whole list |
| `Ledger.ApplyBlockConcat` | crates/ledger-core/src/lib.rs:37-49 | applying two blocks in turn equals applying their concatenation |
| `Ledger.SupplyConserved` | crates/ledger-core/src/lib.rs:37-49 | over any number of blocks the total of all balances never changes if it fits in a u64, and then no credit of any block overflows |
| `Ledger.SupplyConservedIff` | crates/ledger-core/src/lib.rs:41-45 | for arbitrary balances a block keeps the total exactly when no credit wraps around, and never raises it |
| `Merkle.ComputeStateRoot` | crates/ledger-core/src/lib.rs:57-83 | the bottom-up layer loop returns the recursive tree over the padded leaves, and panics exactly above 2^31 entries, where the cast to u32 leaves no leaf |
| `Merkle.LevelKeepsTree` | crates/ledger-core/src/lib.rs:71-80 | one pairing pass over a layer does not change the tree it stands for |
| `Merkle.RootEqualIff` | crates/ledger-core/src/lib.rs:57-83 | two states have one root exactly when they have one padded width and one balance for every account below it |
| `Merkle.DescendRoot` | crates/ledger-core/src/lib.rs:57-82 | following the bits of an account id below the padded width from the state root leads to the leaf of that id and its balance |
| `Merkle.BlockKeepsWidth` | crates/ledger-core/src/lib.rs:29-58 | a block over accounts below the padded width keeps the width and density |
| `Merkle.RootDeterminesNextRoot` | crates/ledger-core/src/lib.rs:37-83 | dense states with one root still have one root after the same block |
| `Merkle.SparseStatesShareRoot` | crates/ledger-core/src/lib.rs:57-68 | without density different states share a root: ids at or above the padded width are not hashed |
| `Generator.GenerateTxs` | zkvm/script/src/bin/network.rs:77-92 | the loop over the mutable seed draws the specified stream and leaves the seed where the stream stopped |
| `Generator.GeneratedBlock` | zkvm/script/src/bin/network.rs:77-92 | a block has the asked size, moves 1 to 10 between known accounts, and never to the sender when there are two accounts |
| `Generator.StreamSeed` | zkvm/script/src/bin/network.rs:77-91 | the seed after k transactions is in closed form the one 3k steps of x -> a*x + 1 modulo 2^64 further |
| `Generator.StreamTx` | zkvm/script/src/bin/network.rs:80-89 | sender, receiver and amount of transaction k are given by the seeds 3k+1, 3k+2 and 3k+3 steps on |
| `Generator.WorkloadSeed` | zkvm/script/src/bin/network.rs:172-182 | block k starts from seed 12345 moved three steps for every earlier transaction |
| `Generator.GenerateInitialState` | zkvm/script/src/bin/network.rs:94-100 | exactly the accounts below the count, each with the initial balance |
| `Generator.BatchesAsOne` | zkvm/script/src/bin/network.rs:172-188 | state and seed after any sequence of blocks are those of one block of the total size |
| `Generator.Rebatching` | zkvm/script/src/bin/network.rs:172-188 | two ways of cutting one stream into blocks end in one state and seed |
| `Generator.Guest` | zkvm/program/src/main.rs:6-24 | the guest commits to the pre-root, the post-root of applying the block, and the transaction digest; it panics exactly when a root cannot be computed |
| `Generator.Replay` | zkvm/script/src/bin/network.rs:153-170 | replaying the skipped blocks reconstructs state and seed of the uninterrupted run |
| `Generator.EmitBlock` | zkvm/script/src/bin/network.rs:181-270 | one round of the main loop emits that block of the uninterrupted run with its commit and steps to the next |
| `Generator.GenerateWorkload` | zkvm/script/src/bin/network.rs:152-270 | a run resumed at any block emits that run's blocks from there on, and nothing when there are none left |
| `Generator.ResumeIsTail` | zkvm/script/src/bin/network.rs:153-188 | what a resumed run emits is the tail of the uninterrupted run: same transactions, roots and digests |
| `Generator.MetaChains` | zkvm/script/src/bin/network.rs:184-191 | the post-root of each block is the pre-root of the next |
| `Generator.WorkloadDense` | zkvm/script/src/bin/network.rs:153-188 | every state of the generated workload is dense and its blocks touch only known accounts |
| `Quorums.QuorumsIntersect` | node/consensus-node/src/state.rs:93-95 | two quorums of size n - (n-1)/3 share a correct replica, for every n |
| `Quorums.FaultBound` | node/consensus-node/src/state.rs:93-95 | f = (n-1)/3 is the largest f with 3f < n, and a quorum is all but f |
| `Quorums.CorrectFormQuorum` | node/consensus-node/src/state.rs:93-95 | the correct replicas alone form a quorum |
| `Quorums.OneFaultMore` | node/consensus-node/src/state.rs:93-95 | with f+1 faulty replicas two sets of n-(f+1) can have only faulty replicas in common |
| `Certificates.VerifyQc` | node/consensus-node/src/consensus/qc.rs:44-61 | accepts exactly when a quorum of distinct known voters has a valid signature in the list, whatever its order, duplicates or junk |
| `Certificates.FormQc` | node/consensus-node/src/consensus/qc.rs:14-35 | returns a certificate holding each vote for its node once, or nothing exactly when no node has a quorum |
| `Certificates.FormedVerifies` | node/consensus-node/src/consensus/qc.rs:14-61 | a certificate formed from verified votes is accepted by every verifier |
| `Certificates.FormedUnique` | node/consensus-node/src/consensus/qc.rs:20-34 | whether a certificate is formed, and for which node, does not depend on map iteration order |
| `Certificates.HighQc` | node/consensus-node/src/consensus/rules.rs:43-50 | the justify of highest view among the collected messages, absent exactly when all are absent |
| `Ancestry.CheckExtends` | node/consensus-node/src/state.rs:168-194 | the bounded loop decides `ExtendsFrom` |
| `Ancestry.ExtendsFromIff` | node/consensus-node/src/state.rs:168-194 | yes exactly for the node itself and ancestors whose links the tree knows, at most 100000 links above its parent |
| `Ancestry.ExtendsFromSound` | node/consensus-node/src/state.rs:168-194 | a yes names the node itself or a true ancestor |
| `Ancestry.ExtendsFromMonotone` | node/consensus-node/src/state.rs:168-194 | a yes stays a yes as the tree grows |
| `VoteLog.OneBallotPerPhase` | node/consensus-node/src/consensus/rules.rs:117-167 | in an allowed log a voter has at most one ballot per phase and view |
| `VoteLog.CertifiedPrepare` | node/consensus-node/src/consensus/rules.rs:219-325 | every certified (phase, view, node) rests on a PREPARE quorum complete in an earlier prefix of the log |
| `VoteLog.CertificateUnique` | node/consensus-node/src/consensus/rules.rs:111-332 | in one view all certificates of all phases name one node |
| `VoteLog.PrepareAfterCommit` | node/consensus-node/src/consensus/rules.rs:139-149 | once a node has a COMMIT quorum, every PREPARE quorum of that view or later is for a descendant, by induction on log prefixes |
| `VoteLog.LaterCertificateExtends` | node/consensus-node/src/consensus/rules.rs:111-332 | the same for certificates of every phase |
| `VoteLog.CommitsAgree` | node/consensus-node/src/consensus/rules.rs:111-332 | two committed nodes lie on one branch |
| `Safety.GoodQcCertified` | node/consensus-node/src/consensus/qc.rs:44-61 | a certificate that verifies and carries no forged signature is backed by a quorum of the vote log |
| `SafetySteps.SafeNodeIsSafe` | node/consensus-node/src/state.rs:147-164 | SafeNode on the local tree implies the rule over true ancestry and certified justifications |
| `SafetySteps.PrepareVoteAllowed` | node/consensus-node/src/consensus/rules.rs:111-174 | the PREPARE vote the rule casts is one the protocol allows after the log so far |
| `SafetySteps.PhaseVoteAllowed` | node/consensus-node/src/consensus/rules.rs:219-332 | so are the PRE-COMMIT and COMMIT votes |
| `SafetySteps.PhaseSigned` | node/consensus-node/src/consensus/rules.rs:225-234 | a PRE-COMMIT vote makes its certificate the newest prepareQC, a COMMIT vote makes it the lock |
| `SafetySteps.EventStep` | node/consensus-node/src/consensus/handlers.rs:20-331 | every event keeps the safety invariant of the whole world |
| `SafetySteps.RuleStep` | node/consensus-node/src/consensus/rules.rs:29-405 | every rule keeps the safety invariant of the whole world |
| `ProposalSteps.EnterReports` | node/consensus-node/src/consensus/handlers.rs:307-318 | leaving a view reports a prepareQC at least as new as every PRE-COMMIT vote cast so far |
| `ProposalSteps.CollectedCover` | node/consensus-node/src/consensus/rules.rs:36-50 | the highest justify of n-f reports covers the PRE-COMMIT votes of a quorum |
| `ProposalSteps.EventKeepsProposals` | node/consensus-node/src/consensus/handlers.rs:29-89 | every event keeps the invariant on reports and proposals: in a view led by a correct replica all store its one proposal |
| `ProposalSteps.RuleKeepsProposals` | node/consensus-node/src/consensus/rules.rs:29-106 | every rule keeps it |
| `ProposalSteps.LockCovered` | README.md:71-71 | a lock older than the proposal's view is on the justified node or older than the justify |
| `ProposalSteps.NoHiddenLock` | node/consensus-node/src/state.rs:147-164 | a correct leader's proposal passes SafeNode at every correct replica that has not left its view |
| `ExecutionProofs.RunChainTrace` | node/consensus-node/src/consensus/execute.rs:45-104 | the execute loop extends the trace by consecutive heights, all ancestors of the decided node |
| `ExecutionProofs.ValidatedGate` | node/consensus-node/src/consensus/handlers.rs:272-286 | serving the oldest request keeps: a pending validation is still in the queue |
| `ExecutionProofs.KickCache` | node/consensus-node/src/consensus/execute.rs:159-199 | a validation requested for a consistent node above the executed height starts from the fold of all blocks below it, whatever else the tree holds |
| `ExecutionProofs.ValidatedCache` | node/consensus-node/src/consensus/handlers.rs:272-286 | an outcome for a consistent node caches the fold through its height, also when it lands late |
| `ExecutionProofs.ApplyCache` | node/consensus-node/src/consensus/execute.rs:72-94 | executing a consistent node keeps live state and caches equal to the folds |
| `ExecutionProofs.SoundProofsLink` | zkvm/program/src/main.rs:10-22 | sound proofs over a dense workload, the first with the right post-root, link up along the roots of the folded states |
| `ExecutionProofs.GenesisClaimsRight` | zkvm/program/src/main.rs:10-22 | a sound first proof that starts at genesis claims the right post-root |
| `ExecutionProofs.ApplyClaimed` | node/consensus-node/src/consensus/execute.rs:75-92 | executing a verified node leaves the post-root claimed for the last executed height as chained root, whatever the proofs |
| `ExecutionProofs.ApplyRoots` | node/consensus-node/src/consensus/execute.rs:75-92 | executing a verified node keeps the chained root equal to the root of the executed height |
| `ExecutionProofs.ChainBreakIff` | node/consensus-node/src/consensus/execute.rs:75-88 | a chain break happens exactly when, above height 0, the claimed pre-root differs from the root reached so far |
| `ExecutionProofs.RunChainCaches` | node/consensus-node/src/consensus/execute.rs:45-104 | the whole loop keeps gate, caches and roots |
| `ExecutionOrder.RunLaw` | node/consensus-node/src/consensus/execute.rs:72-94 | running one node: the cached state becomes live and leaves the cache; a broken chain aborts; otherwise the claimed post-root becomes the chained one and leaves the cache, and the node is the last executed |
| `ExecutionOrder.Commute` | node/consensus-node/src/consensus/execute.rs:30-104 | executing towards two nodes of one branch commutes, and repeating one changes nothing |
| `ExecutionOrder.RetryOrderIndependent` | node/consensus-node/src/consensus/execute.rs:114-124 | all iteration orders of the decided set end in one state: executed height, live state, root, caches and requests |
| `ExecutionOrder.RetryComplete` | node/consensus-node/src/consensus/execute.rs:107-124 | after the pass no decided node can make further progress |
| `LiedHeights.DecideOrderMatters` | node/consensus-node/src/consensus/execute.rs:33-50 | from one start and with the same four nodes validated, DECIDE A before C executes A and C, DECIDE C before A executes A and X; both end at height 1 with different balances |
| `LiedHeights.OnlyOneLie` | node/consensus-node/src/consensus/handlers.rs:70-72 | of those four nodes only one has a height that is not its parent's plus one |
| `Pacemaker.BackoffStep` | node/consensus-node/src/consensus/handlers.rs:266-267 | a timeout doubles the backoff up to u64 max, a decision resets it to the base |
| `Pacemaker.LeadsOnce` | node/consensus-node/src/state.rs:118-126 | any n consecutive views from 1 on are led by every replica exactly once |
| `Pacemaker.NextLeader` | node/consensus-node/src/state.rs:118-126 | view 1 is led by replica 0 and each view by the next replica around the ring |
| `Pacemaker.EventPace` | node/consensus-node/src/consensus/handlers.rs:253-331 | every event keeps the view count, the backoff and the current view's timer or DECIDE |
| `Pacemaker.RulePace` | node/consensus-node/src/consensus/rules.rs:384-405 | every rule keeps them |
| `Pacemaker.TurnKeepsTimer` | node/consensus-node/src/consensus/mod.rs:70-90 | after every event and pass the current view's timer is still to fire, unless the process aborted |
| `Pacemaker.TimerEndsView` | node/consensus-node/src/consensus/handlers.rs:253-268 | a timer of the current view always ends the view in that turn, also when the handler ignores it because DECIDE was seen |
| `Duties.EventDuties` | node/consensus-node/src/consensus/handlers.rs:291-331 | after every event each view left was reported to the next leader, and nothing owed earlier is lost |
| `Duties.RuleDuties` | node/consensus-node/src/consensus/rules.rs:29-405 | after every rule each signed vote is with its leader and each broadcast flag has its message sent to every peer |
| `Progress.KickLaw` | node/consensus-node/src/consensus/execute.rs:135-206 | when a kick asks for a validation, aborts or does nothing, and the state the request starts from: the live one below the executed height, the cached one above |
| `Progress.KickPendingExhausts` | node/consensus-node/src/consensus/execute.rs:212-225 | the sweep leaves a pending validation, or none of the nodes could have started one, or the process aborted |
| `Progress.KickPendingOne` | node/consensus-node/src/consensus/execute.rs:212-225 | the sweep asks for at most one validation, and for none while one is pending |
| `Progress.TurnAsks` | node/consensus-node/src/consensus/execute.rs:141-199 | a turn takes at most the oldest request off the queue and adds only requests for nodes without a cached result |
| `Progress.TurnCatchesUp` | node/consensus-node/src/consensus/mod.rs:70-90 | after a turn that did not abort a validation is pending, or no known node without a result, in range and with the right identifier, has a known state below it; and, if the decided nodes lie on one height-consistent branch, the next node of each known decided branch has no true result, is the pending one if it could be validated, and does not break the chain |
| `Halting.KickNewHalt` | node/consensus-node/src/consensus/execute.rs:147-151 | asking for the validation of a new node aborts exactly when the workload does not have its height |
| `Halting.EventHalts` | node/consensus-node/src/consensus/handlers.rs:29-89 | an event aborts a running replica exactly when it is an accepted proposal outside the workload; otherwise all known heights stay inside |
| `Halting.RuleHalts` | node/consensus-node/src/consensus/execute.rs:75-88 | a rule aborts only before a chain break, on consistent branches one of a decided branch |
| `Halting.HaltedIff` | node/consensus-node/src/consensus/execute.rs:75-88 | a replica that is caught up has aborted exactly when it knows a block outside the workload or a decided branch breaks the chain next |
| `Receipts.PhaseLaw` | node/consensus-node/src/consensus/handlers.rs:90-172 | a good PHASE message not seen before is flagged and staged in whatever view the replica is, a DECIDE also decides its node; any other changes nothing |
| `Receipts.VoteLaw` | node/consensus-node/src/consensus/handlers.rs:173-220 | the first good vote of a voter in a phase is counted; any other changes nothing |
| `Receipts.ReportLaw` | node/consensus-node/src/consensus/handlers.rs:221-246 | the first good NEW-VIEW report of a sender is collected; any other changes nothing |
| `Receipts.ProposalLaw` | node/consensus-node/src/consensus/handlers.rs:29-89 | the node of a good proposal joins the tree, the first of its view is stored, and its validation is asked for if it can start; any other proposal changes nothing |
| `Receipts.EnterLaw` | node/consensus-node/src/consensus/handlers.rs:291-331 | entering a view moves one up, arms its timer and reports the prepareQC to its leader, and changes nothing else |
| `Receipts.TimerLaw` | node/consensus-node/src/consensus/handlers.rs:253-268 | a timer ends its own view and doubles the timeout up to u64 max; a late one, or one after DECIDE, is only used up |
| `Receipts.OutcomeLaw` | node/consensus-node/src/consensus/handlers.rs:272-286 | the result is true exactly for readable input whose proof verifies where proofs are checked; what is cached, and that the pending mark goes only with its own node |
| `Receipts.PrefixStays` | node/consensus-node/src/consensus/mod.rs:70-90 | flags, proposals, votes and reports of peers, certificates, decided nodes, ballots and sent messages survive all later rules of a pass |
| `Responses.ProposeLaw` | node/consensus-node/src/consensus/rules.rs:29-106 | the leader proposes exactly when it has n-f reports, has not proposed, knows the node and the workload has the next block; what it proposes and to whom |
| `Responses.PrepareLaw` | node/consensus-node/src/consensus/rules.rs:111-174 | a judged, unvoted proposal gets its ballot exactly when its result is true and SafeNode holds, otherwise the vote is given up |
| `Responses.CastLaw` | node/consensus-node/src/consensus/rules.rs:151-167 | a vote is signed once, flagged, and reaches the leader of the view by message or by hand |
| `Responses.FormLaw` | node/consensus-node/src/consensus/rules.rs:178-373 | a leader with n-f votes for one node broadcasts their certificate once, as the next phase, and takes it as received; otherwise nothing happens |
| `Responses.CertVoteLaw` | node/consensus-node/src/consensus/rules.rs:219-332 | on the certificate of the phase before, one vote for its node, and the certificate kept as prepareQC or as the lock |
| `Responses.DecideLaw` | node/consensus-node/src/consensus/rules.rs:378-405 | a DECIDE decides its node, executes towards it and, unless that aborts, ends the view with the timeout at its base |
| `Responses.PassAnswers` | node/consensus-node/src/consensus/mod.rs:70-90 | after a pass that stays in its view nothing in it is left unanswered: judged proposals are voted on or given up, received certificates voted for, quorums broadcast, a due proposal sent unless it cannot be built, and no DECIDE is left |
| `Responses.TurnBacked` | node/consensus-node/src/consensus/rules.rs:219-332 | a turn keeps: every PRE-COMMIT and COMMIT flag stands for a ballot on the node of the staged certificate |
| `Heights.ProposeHeights` | node/consensus-node/src/consensus/rules.rs:52-77 | a leader's leaf sits one above the highQC's node, or at height 0 on genesis, and inside the workload |
| `Heights.EventHeights` | node/consensus-node/src/consensus/handlers.rs:70-74 | an event keeps true heights in tree, proposals and outbox if a delivered proposal has one |
| `Heights.RunTrue` | node/consensus-node/src/consensus/rules.rs:52-77 | in every run where faulty leaders' delivered proposals have true heights, so have all trees, stored proposals and sent proposals |
| `Heights.CertifiedConsistent` | node/consensus-node/src/consensus/handlers.rs:58-69 | in a world of true heights every certified node sits on a height-consistent branch, by recursion through the justifies |
| `Runs.InitGood` | node/consensus-node/src/consensus/mod.rs:63-66 | the world after every replica's start satisfies the invariant |
| `Runs.TurnGood` | node/consensus-node/src/main.rs:213-246 | one turn of any correct replica keeps the invariant of the world, and votes are only added |
| `Runs.RunGood` | node/consensus-node/src/main.rs:213-246 | every world of every run satisfies the invariant |
| `Nodes.Collect` | node/consensus-node/src/consensus/execute.rs:120-120 | iterating over a hash set lists each element once |
| `Nodes.Validate` | node/consensus-node/src/validator.rs:69-150 | re-execution returns the state after the block, verification the proof's claimed roots, and unreadable or rejected input is invalid |
| `Nodes.CheckSafe` | node/consensus-node/src/state.rs:147-164 | decides SafeNode |
| `Nodes.BuildChain` | node/consensus-node/src/consensus/execute.rs:30-43 | the walk down the parents, reversed, is the ascending chain above the executed height |
| `Nodes.ReplicaState.constructor` | node/consensus-node/src/state.rs:93-116 | the fresh replica |
| `Nodes.ReplicaState.Enter` | node/consensus-node/src/consensus/handlers.rs:291-331 | moves the state as `EnterNewView` does: view, report to the next leader or into its own collection, timer |
| `Nodes.ReplicaState.Begin` | node/consensus-node/src/consensus/mod.rs:63-66 | moves the state as `StartProtocol` does |
| `Nodes.ReplicaState.Expire` | node/consensus-node/src/consensus/handlers.rs:253-268 | moves the state as `HandleTimer` does, stale and decided cases included |
| `Nodes.ReplicaState.Kick` | node/consensus-node/src/consensus/execute.rs:135-206 | queues one request with the right input state, aborts on a block outside the workload, or leaves everything unchanged |
| `Nodes.ReplicaState.Absorb` | node/consensus-node/src/consensus/handlers.rs:272-286 | folds an outcome into the caches and clears the pending mark only for that node |
| `Nodes.ReplicaState.FinishValidation` | node/consensus-node/src/main.rs:344-363 | the serial worker's oldest request is served and its outcome absorbed |
| `Nodes.ReplicaState.ReceiveProposal` | node/consensus-node/src/consensus/handlers.rs:29-89 | moves the state as `HandleProposal` does, all rejections and the abort included |
| `Nodes.ReplicaState.ReceivePhaseQc` | node/consensus-node/src/consensus/handlers.rs:90-172 | moves the state as `HandlePhaseQc` does |
| `Nodes.ReplicaState.ReceiveVote` | node/consensus-node/src/consensus/handlers.rs:173-220 | moves the state as `HandleVote` does: first vote per voter only, verified unless it is its own |
| `Nodes.ReplicaState.ReceiveNewView` | node/consensus-node/src/consensus/handlers.rs:221-246 | moves the state as `HandleNewView` does |
| `Nodes.ReplicaState.Receive` | node/consensus-node/src/consensus/handlers.rs:20-248 | moves the state as `HandleMsg` does for every message |
| `Nodes.ReplicaState.ChooseHigh` | node/consensus-node/src/consensus/rules.rs:30-50 | says whether the leader may propose, and if so returns a highest justify |
| `Nodes.ReplicaState.Propose` | node/consensus-node/src/consensus/rules.rs:29-106 | moves the state as `LeaderPrepare` does for a highQC that some map order yields |
| `Nodes.ReplicaState.Cast` | node/consensus-node/src/consensus/rules.rs:151-167 | signs, hands the vote to the leader or its own bucket, and sets the flag |
| `Nodes.ReplicaState.VotePrepare` | node/consensus-node/src/consensus/rules.rs:111-174 | moves the state as `ReplicaPrepare` does: wait, give up, or vote |
| `Nodes.ReplicaState.Certify` | node/consensus-node/src/consensus/rules.rs:178-373 | moves the state as `LeaderPhase` does, for each of the three leader rules |
| `Nodes.ReplicaState.VotePhase` | node/consensus-node/src/consensus/rules.rs:219-332 | moves the state as `ReplicaPhase` does, for both voting rules |
| `Nodes.ReplicaState.ExecuteOne` | node/consensus-node/src/consensus/execute.rs:45-104 | one round of the execute loop: run the node, or stop and ask for its validation if that is missing |
| `Nodes.ReplicaState.ExecuteChain` | node/consensus-node/src/consensus/execute.rs:23-105 | both loops together move the state as `TryExecute` does |
| `Nodes.ReplicaState.Backfill` | node/consensus-node/src/consensus/execute.rs:114-124 | moves the state as `RetryPending` does over some order of the decided set |
| `Nodes.ReplicaState.KickAll` | node/consensus-node/src/consensus/execute.rs:212-225 | moves the state as `KickPending` does over some order of the tree |
| `Nodes.ReplicaState.DecideView` | node/consensus-node/src/consensus/rules.rs:378-405 | moves the state as `ReplicaDecide` does |
| `Nodes.ReplicaState.TryAdvance` | node/consensus-node/src/consensus/mod.rs:70-90 | the ten rules fire once each, in the fixed order, each with parameters the state allowed |
| `Nodes.ReplicaState.Serve` | node/consensus-node/src/main.rs:213-246 | one turn of the event loop, aborts included, is a `Turn` of the system model |
| `Theorems.Agreement` | node/consensus-node/src/consensus/rules.rs:111-332 | in every run, once a valid commit certificate exists every valid certificate of that view or later is for a descendant |
| `Theorems.DecidedNeverConflict` | node/consensus-node/src/consensus/handlers.rs:153-168 | no two correct replicas, at any two times, have decided conflicting nodes |
| `Theorems.CertificateUniqueness` | node/consensus-node/src/consensus/rules.rs:111-332 | in every run all valid certificates of one view name one node, and PRE-COMMIT and COMMIT certificates come after a PREPARE quorum |
| `Theorems.ExternalValidity` | node/consensus-node/src/consensus/rules.rs:123-137 | in every run a valid certificate names a block of the workload: a height it has, with the identifier of that height, and where the correct replicas verify proofs, a proof that verifies |
| `Theorems.DecidedValidity` | node/consensus-node/src/consensus/execute.rs:151-158 | so does every node a correct replica saw decided |
| `Theorems.VoteDiscipline` | node/consensus-node/src/consensus/rules.rs:111-332 | a correct replica signs at most one ballot per phase and view, in its own name, never for a future view |
| `Theorems.VotesAreCurrent` | node/consensus-node/src/consensus/rules.rs:111-332 | over any stretch of a run it signs only for views it passes through in that stretch, and views never go down |
| `Theorems.StoredCertificates` | node/consensus-node/src/consensus/rules.rs:225-312 | its prepareQC and lockedQC verify, are no newer than its view, and are its newest PRE-COMMIT and COMMIT votes |
| `Theorems.LocksNeverDecrease` | node/consensus-node/src/consensus/rules.rs:225-312 | the views of prepareQC and lockedQC never go down |
| `Theorems.ProposalsAreSafe` | node/consensus-node/src/consensus/rules.rs:36-52 | in every run a correct leader's proposal passes SafeNode at every correct replica that has not left its view, whatever it is locked on |
| `Theorems.NothingForgotten` | node/consensus-node/src/network.rs:222-242 | every signed vote, view change and broadcast of a correct replica was handed to the network or to its own collection |
| `Theorems.ExecutedTrace` | node/consensus-node/src/consensus/execute.rs:23-105 | executed nodes have heights 0,1,2,... and each is an ancestor of a node seen decided |
| `Theorems.ReplicatedExecution` | node/consensus-node/src/consensus/execute.rs:23-105 | next to a replica that executed only height-consistent nodes, another correct one at any time has executed a prefix or extension of the same sequence if and only if its nodes at those heights are consistent too |
| `Theorems.ExecutedBelowDecided` | node/consensus-node/src/consensus/execute.rs:30-43 | consistent decided branches make all executed nodes consistent |
| `Theorems.BackfillOrderIndependent` | node/consensus-node/src/consensus/mod.rs:76-86 | in every turn of every run, after the event and the first eight rules, the backfill pass gives one result for all iteration orders of the decided set |
| `Theorems.ReexecutionCorrect` | node/consensus-node/src/consensus/execute.rs:135-199 | in every run a replica that executed only consistent nodes has the plain fold of blocks 0..last as live state, and every cached or queued state of a consistent node above it is the fold too, whatever faulty leaders put into its tree |
| `Theorems.ChainedIsClaimed` | node/consensus-node/src/consensus/execute.rs:75-92 | in every run, with no hypothesis on proofs, a verifying replica's chained root is the post-root that the proof of its last executed height claims |
| `Theorems.VerificationCorrect` | node/consensus-node/src/consensus/execute.rs:75-92 | in every run with sound dense proofs whose first claims the right post-root, a verifying replica's chained root is the root of the plain fold at every height it reaches |
| `Theorems.FirstVerifiedRoot` | node/consensus-node/src/consensus/execute.rs:77-78 | after the first block the chained root is right if and only if the first proof claims the right post-root |
| `Theorems.VerificationFromGenesis` | node/consensus-node/src/consensus/execute.rs:75-92 | the chained root is right at every height when sound dense proofs start at genesis |
| `Theorems.VerificationRefinesReexecution` | node/consensus-node/src/validator.rs:78-148 | at equal height the verifier's chained root is the state root of the re-executing replica's live state |
| `ForeignStart.ForeignStartDiverges` | node/consensus-node/src/consensus/execute.rs:77-78 | a workload of sound dense proofs on which a fresh node validates and executes the first block without a chain break and ends with a root that is not the ledger's |
| `ForeignStart.ForeignStartCanAgree` | node/consensus-node/src/consensus/execute.rs:77-78 | a workload of sound dense proofs that do not start at genesis and still claim the right first post-root |
| `Theorems.GeneratedSound` | zkvm/script/src/bin/network.rs:172-270 | the generated workload meets every hypothesis on proofs |
| `Theorems.GeneratedNeverBreaks` | node/consensus-node/src/consensus/execute.rs:77-88 | on a generated workload a verifying replica never hits a chain break: it has aborted exactly when it knows a block outside the workload |
| `Theorems.ReexecutionNeverBreaks` | node/consensus-node/src/consensus/execute.rs:75-88 | so for a re-executing replica on any workload |
| `Theorems.AbortsExactly` | node/consensus-node/src/consensus/execute.rs:75-88 | between turns a correct replica has aborted exactly when it knows a block outside the workload or a branch it saw decided breaks the chain at its next node |
| `Theorems.EventAbortsExactly` | node/consensus-node/src/workload.rs:73-79 | in every run an event aborts a running replica exactly when it is an accepted proposal for a block the workload does not have |
| `Theorems.ForeignProposalArrives` | node/consensus-node/src/consensus/handlers.rs:29-89 | with a faulty leader of view 1 such a proposal can arrive at every replica right after the start, and aborts it |
| `Theorems.GateNeverWedges` | node/consensus-node/src/consensus/execute.rs:141-225 | in every run a pending validation is still in the worker's queue |
| `Theorems.NoCachedRequest` | node/consensus-node/src/consensus/execute.rs:141-199 | in every step of every run, each request queued is for a node whose result is not known after the step, and only the oldest request may have left the queue |
| `Theorems.NothingLeftBehind` | node/consensus-node/src/consensus/mod.rs:82-89 | the same between turns, in every world of every run |
| `Theorems.PaceInRuns` | node/consensus-node/src/consensus/handlers.rs:253-331 | views are entered as 1,2,3,... and the timeout is base times 2^k saturated, k being the timeouts since the last decision |
| `Theorems.NeverStranded` | node/consensus-node/src/consensus/handlers.rs:326-330 | between turns every correct replica has an unfired timer for its current view, unless it knows a block outside the workload or stands before a chain break |
| `Theorems.HonestHeightsHold` | node/consensus-node/src/consensus/rules.rs:52-77 | in every run where faulty leaders' delivered proposals have true heights, all trees have true heights and all decided branches are consistent |
| `Theorems.HonestReplicatedExecution` | node/consensus-node/src/consensus/execute.rs:23-105 | in such runs, of any two correct replicas at any two times one has executed a prefix of what the other has |
| `Theorems.HonestReexecution` | node/consensus-node/src/consensus/execute.rs:135-199 | in such runs every re-executing replica holds the plain fold |
| `Theorems.HonestBackfill` | node/consensus-node/src/consensus/execute.rs:114-124 | in such runs every backfill pass is independent of the iteration order |
| `Theorems.FaultFreeExecution` | node/consensus-node/src/consensus/execute.rs:23-105 | without faulty replicas, and with no condition on heights, executions are prefixes of one another, and re-executing replicas hold the plain fold and never abort |
| `Deliveries.PhaseReceived` | node/consensus-node/src/consensus/handlers.rs:90-172 | in every run a delivered PHASE message from the leader of its view, of matching type and view, with a verifying certificate and not seen before, is flagged and staged ever after, and a DECIDE's node is decided ever after, whatever view the replica is in |
| `Deliveries.VoteReceived` | node/consensus-node/src/consensus/handlers.rs:173-220 | in every run a peer's first signed vote of a phase that reaches the leader of its view is counted ever after |
| `Deliveries.ReportReceived` | node/consensus-node/src/consensus/handlers.rs:221-246 | in every run a peer's first good NEW-VIEW report that reaches the next leader is collected ever after |
| `Deliveries.ProposalReceived` | node/consensus-node/src/consensus/handlers.rs:29-89 | in every run the node of a delivered good proposal is known ever after, and the first of its view is the one stored |
| `Deliveries.NothingLost` | node/consensus-node/src/consensus/handlers.rs:20-331 | over any stretch of a run a correct replica loses or replaces nothing it learned from others, signed or sent |
| `Deliveries.VotesOnlyForValid` | node/consensus-node/src/consensus/rules.rs:123-137 | in every step of every run each PREPARE ballot added is for a node whose recorded result is true when it is signed |
| `Deliveries.ValidGetsVote` | node/consensus-node/src/consensus/rules.rs:111-174 | in every step of every run a stored, unvoted proposal of the current view with a true result that passes SafeNode gets its ballot in that turn |
| `Deliveries.LeaderProposes` | node/consensus-node/src/consensus/rules.rs:36-78 | in every step of every run a leader with n-f reports that has not proposed proposes in that turn on the highest of them, when it knows the node and the workload has the next block |
| `Deliveries.NothingUnanswered` | node/consensus-node/src/consensus/mod.rs:70-90 | after every turn of every run that stays in its view and does not abort, nothing in that view is left unanswered |
| `Deliveries.FlagsMeanBallots` | node/consensus-node/src/consensus/rules.rs:219-332 | in every run a PRE-COMMIT or COMMIT flag stands for a ballot on the node of the certificate that was received |
| `Deliveries.StopsExactly` | node/consensus-node/src/main.rs:213-216 | in every run a replica has left its main loop exactly when it aborted or executed every block |

## Left out

- TCP framing, handshake, connection setup, channels and asynchronous scheduling: replaced by a set of sent messages, a set of armed timers and a FIFO queue of validation requests.
- Ed25519, SHA-256 and SP1 internals: replaced by symbolic terms and the stated soundness of accepted proofs.
- Reading and decoding files: the workload is a function from height to identifier, transactions and proof claim; a read or decode failure inside the validator is the `readable` flag. A missing or corrupt directory of a block that the manifest counts, which also aborts the process, is not modelled.
- Liveness under partial synchrony: there is no block fetch when the node of the highQC is unknown, so only the safety-style progress facts above are claimed.
- Restart and persistence, logging, throughput counters, slow-node delays, command-line parsing and shell scripts.
- Views and heights are unbounded naturals: overflow of u64 views and the cast of heights to i64 are not modelled. Timeouts and balances are modelled as u64.
- Reading the data of a view that has none does not create an entry in the model; in the program it may create a default entry, which reads the same.
- The validator's outcome is computed when it is folded in rather than when the worker finishes; both depend only on the request.
- Generator arguments on which the program panics (no accounts, or more than 2^31).
- Theorems.BackfillOrderIndependent: assumes height-consistent decided branches; Theorems.HonestBackfill gives the condition on what arrives.
- Theorems.ReexecutionCorrect: assumes that the replica executed only height-consistent nodes, because otherwise live states can differ (`LiedHeights.DecideOrderMatters`).
- Theorems.VerificationRefinesReexecution: assumes the same of the re-executing replica.
- Theorems.AbortsExactly: assumes height-consistent decided branches; without them Theorems.NeverStranded says what an abort implies.
- Theorems.VerificationCorrect: assumes that accepted proofs are sound, over dense accounts, and that the first claims the right post-root; the program does not check the last two.
