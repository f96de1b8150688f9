/** When the process aborts: on a chain break (consensus/execute.rs:77-88), or on loading a block
    outside the workload (consensus/execute.rs:151, workload.rs:73-79). */
module Halting {
  import opened Messages
  import opened Ancestry
  import opened Execution
  import opened ExecutionOrder
  import opened Replicas
  import opened Progress

  ghost predicate TreeInRange(env: Env, tree: Tree) {
    forall h | h in tree :: tree[h].height < env.numBlocks
  }

  /** `h` names a block of the workload: a height it has, with the identifier of that height. */
  predicate IsBlock(env: Env, h: Hash) {
    h.NodeHash? && h.node.height < env.numBlocks && h.node.cmd == env.blocks(h.node.height).cmd
  }

  ghost predicate QueueInRange(env: Env, requests: seq<Request>) {
    forall k | 0 <= k < |requests| :: IsBlock(env, requests[k].hash)
  }

  /** Everything validated, pending or queued is a block of the workload. */
  ghost predicate KnownInRange(env: Env, ex: Exec) {
    && (forall h | h in ex.validation :: IsBlock(env, h))
    && (ex.pending.Some? ==> IsBlock(env, ex.pending.value))
    && QueueInRange(env, ex.requests)
  }

  /** The next height has a validated node that does not continue the chain of roots. */
  ghost predicate Breakable(tree: Tree, ex: Exec) {
    exists h :: h in tree && Ready(tree, ex, h) && ChainBreak(tree, ex, h)
  }

  ghost predicate DecidedConsistent(decided: set<Hash>) {
    forall d | d in decided :: HeightConsistent(d)
  }

  /** A node that runs knows only blocks of the workload. One that aborted knows another, or stands
      before a chain break, which on consistent branches is a break of a decided branch. */
  ghost predicate HaltOk(env: Env, tree: Tree, decided: set<Hash>, ex: Exec) {
    && KnownInRange(env, ex)
    && (!ex.panicked ==> TreeInRange(env, tree))
    && (ex.panicked && TreeInRange(env, tree) ==>
          Breakable(tree, ex) && (DecidedConsistent(decided) ==> ChainBroken(tree, decided, ex)))
  }

  // ----- validation -----

  lemma KickKnown(env: Env, tree: Tree, ex: Exec, h: Hash)
    requires KnownInRange(env, ex)
    ensures KnownInRange(env, MaybeKick(env, tree, ex, h))
  {
  }

  lemma KickHalt(env: Env, tree: Tree, decided: set<Hash>, ex: Exec, h: Hash)
    requires KnownInRange(env, ex) && TreeInRange(env, tree) && !ex.panicked
    ensures var ex' := MaybeKick(env, tree, ex, h); HaltOk(env, tree, decided, ex') && !ex'.panicked
  {
    KickKnown(env, tree, ex, h);
  }

  /** Asking for the validation of a new node aborts exactly when the workload does not have it. */
  lemma KickNewHalt(env: Env, tree: Tree, decided: set<Hash>, ex: Exec, n: Node)
    requires KnownInRange(env, ex) && TreeInRange(env, tree) && !ex.panicked
    ensures var tree' := tree[NodeHash(n) := n];
            var ex' := MaybeKick(env, tree', ex, NodeHash(n));
            HaltOk(env, tree', decided, ex') && (ex'.panicked <==> n.height >= env.numBlocks)
  {
    var tree' := tree[NodeHash(n) := n];
    KickKnown(env, tree', ex, NodeHash(n));
    if n.height < env.numBlocks {
      KickHalt(env, tree', decided, ex, NodeHash(n));
    } else {
      assert NodeHash(n) in tree' && !TreeInRange(env, tree');
    }
  }

  lemma ValidatedHalt(env: Env, tree: Tree, decided: set<Hash>, ex: Exec, readable: bool)
    requires HaltOk(env, tree, decided, ex) && !ex.panicked && ex.requests != []
    ensures HaltOk(env, tree, decided, Validated(env, ex, readable))
  {
    var ex' := Validated(env, ex, readable);
    assert IsBlock(env, ex.requests[0].hash);
    forall k | 0 <= k < |ex'.requests| ensures IsBlock(env, ex'.requests[k].hash) {
      assert ex'.requests[k] == ex.requests[k + 1];
    }
  }

  lemma {:induction false} KickPendingHalt(env: Env, tree: Tree, decided: set<Hash>, ex: Exec, order: seq<Hash>)
    requires HaltOk(env, tree, decided, ex)
    ensures HaltOk(env, tree, decided, KickPending(env, tree, ex, order))
    decreases |order|
  {
    if order != [] && ex.pending.None? && !ex.panicked {
      KickHalt(env, tree, decided, ex, order[0]);
      KickPendingHalt(env, tree, decided, MaybeKick(env, tree, ex, order[0]), order[1..]);
    }
  }

  // ----- execution -----

  lemma ApplyKnown(env: Env, tree: Tree, ex: Exec, h: Hash)
    requires KnownInRange(env, ex) && h in tree
    ensures KnownInRange(env, Apply(tree, ex, h))
  {
  }

  /** Running a chain aborts only before a node that breaks it. */
  lemma {:induction false} RunChainBreaks(env: Env, tree: Tree, ex: Exec, chain: seq<Hash>)
    requires KnownInRange(env, ex) && TreeInRange(env, tree) && !ex.panicked && forall h | h in chain :: h in tree
    ensures var ex' := RunChain(env, tree, ex, chain);
            KnownInRange(env, ex') && (ex'.panicked ==> Breakable(tree, ex'))
    decreases |chain|
  {
    if chain != [] {
      var h := chain[0];
      if !Ready(tree, ex, h) {
        KickHalt(env, tree, {}, ex, h);
      } else {
        ApplyKnown(env, tree, ex, h);
        var ex' := Apply(tree, ex, h);
        if ChainBreak(tree, ex, h) {
          assert Ready(tree, ex', h) && ChainBreak(tree, ex', h);
        } else {
          RunChainBreaks(env, tree, ex', chain[1..]);
        }
      }
    }
  }

  /** An execution that aborts got past an earlier node of the branch, or found the next one breaking. */
  lemma BreakStep(env: Env, tree: Tree, ex: Exec, d: Hash) returns (h: Hash)
    requires HeightConsistent(d) && ex.last >= -1 && TreeInRange(env, tree) && !ex.panicked
    requires TryExecute(env, tree, ex, d).panicked
    ensures d.NodeHash? && d.node.height > ex.last && h in Chain(tree, ex.last, d) && Ready(tree, ex, h)
    ensures TryExecute(env, tree, ex, d) == TryExecute(env, tree, Apply(tree, ex, h), d)
  {
    h := FirstAbove(ex.last, d);
    Unfold(env, tree, ex, d);
    ChainShape(tree, ex.last, d);
  }

  /** On a consistent branch the breaking node is the next one of that branch. */
  lemma {:induction false} TryExecuteBreaks(env: Env, tree: Tree, ex: Exec, d: Hash) returns (h: Hash)
    requires HeightConsistent(d) && ex.last >= -1 && TreeInRange(env, tree) && !ex.panicked
    requires TryExecute(env, tree, ex, d).panicked
    ensures BreaksAt(tree, TryExecute(env, tree, ex, d), d, h)
    decreases if d.NodeHash? then d.node.height - ex.last else 0
  {
    h := BreakStep(env, tree, ex, d);
    if ChainBreak(tree, ex, h) {
      PanickedStops(env, tree, Apply(tree, ex, h), d);
      BrokenStays(tree, ex, d, h);
    } else {
      h := TryExecuteBreaks(env, tree, Apply(tree, ex, h), d);
    }
  }

  lemma BrokenStays(tree: Tree, ex: Exec, d: Hash, h: Hash)
    requires BreaksAt(tree, ex, d, h)
    ensures BreaksAt(tree, Apply(tree, ex, h), d, h)
  {
  }

  lemma TryExecuteHalt(env: Env, tree: Tree, decided: set<Hash>, ex: Exec, d: Hash)
    requires HaltOk(env, tree, decided, ex) && !ex.panicked && d in decided && ex.last >= -1
    ensures HaltOk(env, tree, decided, TryExecute(env, tree, ex, d))
  {
    RunChainBreaks(env, tree, ex, Chain(tree, ex.last, d));
    if TryExecute(env, tree, ex, d).panicked && DecidedConsistent(decided) {
      var h := TryExecuteBreaks(env, tree, ex, d);
    }
  }

  lemma {:induction false} RetryHalt(env: Env, tree: Tree, decided: set<Hash>, ex: Exec, order: seq<Hash>)
    requires HaltOk(env, tree, decided, ex) && ex.last >= -1 && forall d | d in order :: d in decided
    ensures HaltOk(env, tree, decided, RetryPending(env, tree, ex, order))
    decreases |order|
  {
    if order != [] && !ex.panicked {
      TryExecuteHalt(env, tree, decided, ex, order[0]);
      RunChainLast(env, tree, ex, Chain(tree, ex.last, order[0]));
      RetryHalt(env, tree, decided, TryExecute(env, tree, ex, order[0]), order[1..]);
    }
  }

  // ----- what was voted for -----

  /** A block of the workload, with a proof that verifies where proofs are what is checked. */
  predicate Vouched(env: Env, h: Hash) {
    IsBlock(env, h) && (env.mode == Verify ==> env.blocks(h.node.height).proof.Some?)
  }

  ghost predicate ResultsVouched(env: Env, ex: Exec) {
    forall h | h in ex.validation && ex.validation[h] :: Vouched(env, h)
  }

  /** Every node this replica voted PREPARE for has a validation result and is such a block. */
  ghost predicate VotedKnown(env: Env, r: Replica) {
    forall b | b in r.io.signed && b.kind == Prepare :: b.node in r.exec.validation && Vouched(env, b.node)
  }

  lemma EventKnown(env: Env, r: Replica, ev: Event)
    requires ValidEnv(env) && VotedKnown(env, r) && EventOk(r, ev)
    ensures VotedKnown(env, Handle(env, r, ev))
  {
    var r' := Handle(env, r, ev);
    if !ev.ValidationDone? { HandleAsks(env, r, ev); }
    assert r'.io.signed == r.io.signed && r.exec.validation.Keys <= r'.exec.validation.Keys;
  }

  /** A rule signs a PREPARE ballot only for a node whose result is true. */
  lemma NewBallot(env: Env, r: Replica, rule: Rule, b: Ballot)
    requires ValidEnv(env) && RuleOk(env, r, rule)
    requires b in Fire(env, r, rule).io.signed && b !in r.io.signed && b.kind == Prepare
    ensures b.node in r.exec.validation && r.exec.validation[b.node]
  {
  }

  lemma RuleKnown(env: Env, r: Replica, rule: Rule)
    requires ValidEnv(env) && VotedKnown(env, r) && ResultsVouched(env, r.exec) && RuleOk(env, r, rule)
    ensures VotedKnown(env, Fire(env, r, rule))
  {
    var r' := Fire(env, r, rule);
    FireAsks(env, r, rule);
    forall b | b in r'.io.signed && b.kind == Prepare ensures b.node in r'.exec.validation && Vouched(env, b.node) {
      if b !in r.io.signed { NewBallot(env, r, rule, b); }
    }
  }

  // ----- events and rules -----

  /** A proposal that passes the handler's checks but whose block the workload does not have. */
  predicate ForeignProposal(env: Env, ev: Event)
    requires ValidEnv(env)
  {
    && ev.Deliver? && ev.msg.Proposal? && ev.msg.sender == Leader(env.n, ev.msg.view)
    && AcceptsJustify(env, ev.msg.justify) && ev.msg.node.parent == JustifiedNode(ev.msg.justify)
    && ev.msg.node.height >= env.numBlocks
  }

  ghost predicate ReplicaHaltOk(env: Env, r: Replica) {
    HaltOk(env, r.core.tree, r.core.decided, r.exec)
  }

  lemma ProposalHalt(env: Env, r: Replica, view: nat, node: Node, j: Option<QC>, sender: nat)
    requires ValidEnv(env) && ReplicaHaltOk(env, r) && !r.exec.panicked
    ensures var r' := HandleProposal(env, r, view, node, j, sender);
            && ReplicaHaltOk(env, r')
            && (r'.exec.panicked <==> ForeignProposal(env, Deliver(Proposal(view, node, j, sender))))
  {
    KickNewHalt(env, r.core.tree, r.core.decided, r.exec, node);
  }

  lemma OtherMessageHalt(env: Env, r: Replica, msg: Wire)
    requires ValidEnv(env) && !msg.Proposal?
    ensures var r' := HandleMsg(env, r, msg); r'.exec == r.exec && r'.core.tree == r.core.tree
  {
  }

  /** An event makes a running replica abort exactly when it is such a proposal. */
  lemma EventHalts(env: Env, r: Replica, ev: Event)
    requires ValidEnv(env) && ReplicaHaltOk(env, r) && !r.exec.panicked && EventOk(r, ev)
    ensures ReplicaHaltOk(env, Handle(env, r, ev))
    ensures Handle(env, r, ev).exec.panicked <==> ForeignProposal(env, ev)
  {
    match ev
    case Deliver(msg) =>
      if msg.Proposal? {
        ProposalHalt(env, r, msg.view, msg.node, msg.justify, msg.sender);
      } else {
        OtherMessageHalt(env, r, msg);
      }
    case ValidationDone(readable) => ValidatedHalt(env, r.core.tree, r.core.decided, r.exec, readable);
    case _ =>
  }

  lemma ProposeHalts(env: Env, r: Replica, high: Option<QC>)
    requires ValidEnv(env) && ReplicaHaltOk(env, r) && !r.exec.panicked
    ensures ReplicaHaltOk(env, LeaderPrepare(env, r, high)) && !LeaderPrepare(env, r, high).exec.panicked
  {
    if LeaderPrepare(env, r, high) != r {
      var height := NextHeight(r.core.tree, high).value;
      var leaf := Node(JustifiedNode(high), env.blocks(height).cmd, height);
      KickNewHalt(env, r.core.tree, r.core.decided, r.exec, leaf);
    }
  }

  lemma MoreDecided(env: Env, tree: Tree, decided: set<Hash>, h: Hash, ex: Exec)
    requires HaltOk(env, tree, decided, ex) && !ex.panicked
    ensures HaltOk(env, tree, decided + {h}, ex)
  {
  }

  lemma DecideHalts(env: Env, r: Replica)
    requires ValidEnv(env) && ReplicaHaltOk(env, r) && !r.exec.panicked && r.exec.last >= -1
    ensures ReplicaHaltOk(env, ReplicaDecide(env, r))
  {
    if (Decide, r.core.view) in r.core.staged {
      var h := r.core.staged[(Decide, r.core.view)].node;
      MoreDecided(env, r.core.tree, r.core.decided, h, r.exec);
      TryExecuteHalt(env, r.core.tree, r.core.decided + {h}, r.exec, h);
    }
  }

  lemma VoteQuiet(env: Env, r: Replica, rule: Rule)
    requires ValidEnv(env) && (rule == PrepareRule || rule.FormRule? || rule.PhaseRule?)
    ensures var r' := Fire(env, r, rule);
            r'.exec == r.exec && r'.core.tree == r.core.tree && r'.core.decided == r.core.decided
  {
    match rule
    case PrepareRule => PrepareQuiet(env, r);
    case PhaseRule(kind) => PhaseQuiet(env, r, kind);
    case _ =>
  }

  lemma PrepareQuiet(env: Env, r: Replica)
    requires ValidEnv(env)
    ensures var r' := ReplicaPrepare(env, r);
            r'.exec == r.exec && r'.core.tree == r.core.tree && r'.core.decided == r.core.decided
  {
  }

  lemma PhaseQuiet(env: Env, r: Replica, kind: MsgType)
    requires ValidEnv(env)
    ensures var r' := ReplicaPhase(env, r, kind);
            r'.exec == r.exec && r'.core.tree == r.core.tree && r'.core.decided == r.core.decided
  {
  }

  lemma RuleHalts(env: Env, r: Replica, rule: Rule)
    requires ValidEnv(env) && ReplicaHaltOk(env, r) && r.exec.last >= -1 && RuleOk(env, r, rule)
    ensures ReplicaHaltOk(env, Fire(env, r, rule))
  {
    if !r.exec.panicked {
      match rule
      case ProposeRule(high) => ProposeHalts(env, r, high);
      case DecideRule => DecideHalts(env, r);
      case RetryRule(order) => RetryHalt(env, r.core.tree, r.core.decided, r.exec, order);
      case KickRule(order) => KickPendingHalt(env, r.core.tree, r.core.decided, r.exec, order);
      case _ => VoteQuiet(env, r, rule);
    }
  }

  /** Between turns a replica has aborted exactly when it knows a block outside the workload, or a
      branch it saw decided breaks the chain at its next node. */
  lemma HaltedIff(env: Env, r: Replica)
    requires ReplicaHaltOk(env, r) && CaughtUp(env, r) && OneDecidedBranch(r.core.decided)
    ensures r.exec.panicked
       <==> !TreeInRange(env, r.core.tree) || ChainBroken(r.core.tree, r.core.decided, r.exec)
  {
    forall d | d in r.core.decided ensures HeightConsistent(d) {
      assert OneBranch(d, d);
    }
  }
}
