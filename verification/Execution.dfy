/** Deferred validation and execution (node/consensus-node/src/consensus/execute.rs and
    node/consensus-node/src/validator.rs): the specification functions. */
module Execution {
  import opened Messages
  import opened Ancestry
  import opened Ledger
  import opened Generator

  /** One block directory of the workload: its identifier, its transactions, and the public
      values of its proof when that proof verifies. */
  datatype Block = Block(cmd: Digest, txs: seq<Tx>, proof: Option<BlockCommit>)

  datatype Mode = Reexecute | Verify

  /** What a node is started with. The workload directory holds blocks 0..numBlocks-1. */
  datatype Env = Env(n: nat, me: nat, base: nat, numBlocks: nat, blocks: nat -> Block, mode: Mode, genesis: State)

  datatype Request = Request(hash: Hash, height: nat, input: State)

  datatype Outcome = Outcome(
    hash: Hash,
    valid: bool,
    postState: Option<State>,
    postRoot: Option<Digest>,
    preRoot: Option<Digest>)

  /** `last` is -1 before the first execution. `requests` is the FIFO queue of the serial
      validator worker, `executed` the trace of executed nodes. `panicked` means that the process
      aborted: on a chain break, or on loading a block that the workload does not have. */
  datatype Exec = Exec(
    last: int,
    validation: map<Hash, bool>,
    pending: Option<Hash>,
    postState: map<Hash, State>,
    postRoot: map<Hash, Digest>,
    preRoot: map<Hash, Digest>,
    live: State,
    chained: Digest,
    requests: seq<Request>,
    executed: seq<Hash>,
    panicked: bool)

  function NewExec(env: Env): Exec {
    Exec(-1, map[], None, map[], map[], map[], if env.mode == Reexecute then env.genesis else State(map[]),
         Zero, [], [], false)
  }

  // ----- validation requests -----

  /** The state a validation of `node` must start from, when it is known. */
  function InputState(tree: Tree, ex: Exec, node: Node): Option<State> {
    if node.parent == Genesis then
      if ex.last >= 0 then None else Some(ex.live)
    else if node.parent !in tree then None
    else if tree[node.parent].height <= ex.last then Some(ex.live)
    else if node.parent in ex.postState then Some(ex.postState[node.parent])
    else None
  }

  function MaybeKick(env: Env, tree: Tree, ex: Exec, h: Hash): Exec {
    if h in ex.validation || ex.pending == Some(h) || h !in tree then ex
    else if tree[h].height >= env.numBlocks then ex.(panicked := true)
    else if env.blocks(tree[h].height).cmd != tree[h].cmd then ex
    else
      match InputState(tree, ex, tree[h])
      case None => ex
      case Some(input) =>
        ex.(pending := Some(h), requests := ex.requests + [Request(h, tree[h].height, input)])
  }

  function KickPending(env: Env, tree: Tree, ex: Exec, order: seq<Hash>): Exec
    decreases |order|
  {
    if order == [] || ex.pending.Some? || ex.panicked then ex
    else KickPending(env, tree, MaybeKick(env, tree, ex, order[0]), order[1..])
  }

  /** `run_validation`; `readable` is false when a file cannot be read or decoded. */
  function RunValidation(env: Env, req: Request, readable: bool): Outcome {
    var block := env.blocks(req.height);
    if !readable then Outcome(req.hash, false, None, None, None)
    else match env.mode
         case Reexecute => Outcome(req.hash, true, Some(ApplyBlock(req.input, block.txs)), None, None)
         case Verify =>
           match block.proof
           case None => Outcome(req.hash, false, None, None, None)
           case Some(c) => Outcome(req.hash, true, None, Some(c.post), Some(c.pre))
  }

  function CachedOutcome(ex: Exec, out: Outcome): Exec {
    ex.(postState := if out.postState.Some? then ex.postState[out.hash := out.postState.value] else ex.postState,
        postRoot := if out.postRoot.Some? then ex.postRoot[out.hash := out.postRoot.value] else ex.postRoot,
        preRoot := if out.preRoot.Some? then ex.preRoot[out.hash := out.preRoot.value] else ex.preRoot)
  }

  function Ingest(ex: Exec, out: Outcome): Exec {
    CachedOutcome(ex, out).(validation := ex.validation[out.hash := out.valid],
                            pending := if ex.pending == Some(out.hash) then None else ex.pending)
  }

  /** The worker finishes its oldest request and the outcome is folded in. */
  function Validated(env: Env, ex: Exec, readable: bool): Exec
    requires ex.requests != []
  {
    Ingest(ex.(requests := ex.requests[1..]), RunValidation(env, ex.requests[0], readable))
  }

  // ----- execution -----

  /** Nodes from `last + 1` up to `cur` along known parent links, ascending. */
  function Chain(tree: Tree, last: int, cur: Hash): (chain: seq<Hash>)
    ensures forall i | 0 <= i < |chain| :: chain[i] in tree && tree[chain[i]].height > last
    ensures forall i | 0 <= i < |chain| :: Extends(cur, chain[i])
    decreases cur
  {
    if cur !in tree || tree[cur].height <= last then []
    else if tree[cur].parent == Genesis then [cur]
    else Chain(tree, last, tree[cur].parent) + [cur]
  }

  predicate Ready(tree: Tree, ex: Exec, h: Hash)
    requires h in tree
  {
    tree[h].height == ex.last + 1 && h in ex.validation && ex.validation[h]
  }

  /** A node that cannot run yet stops the pass, after asking for its validation if that is missing. */
  function Stall(env: Env, tree: Tree, ex: Exec, h: Hash): Exec
    requires h in tree
  {
    if tree[h].height == ex.last + 1 && h !in ex.validation then MaybeKick(env, tree, ex, h) else ex
  }

  predicate ChainBreak(tree: Tree, ex: Exec, h: Hash)
    requires h in tree
  {
    h in ex.preRoot && tree[h].height > 0 && ex.preRoot[h] != ex.chained
  }

  function Apply(tree: Tree, ex: Exec, h: Hash): Exec
    requires h in tree
  {
    var ex1 := if h in ex.postState then ex.(live := ex.postState[h], postState := ex.postState - {h}) else ex;
    if ChainBreak(tree, ex, h) then ex1.(panicked := true)
    else
      var ex2 := if h in ex.preRoot && h in ex.postRoot
                 then ex1.(chained := ex.postRoot[h], postRoot := ex.postRoot - {h}) else ex1;
      ex2.(last := tree[h].height, executed := ex.executed + [h])
  }

  function RunChain(env: Env, tree: Tree, ex: Exec, chain: seq<Hash>): Exec
    requires forall h | h in chain :: h in tree
    decreases |chain|
  {
    if chain == [] || ex.panicked then ex
    else if !Ready(tree, ex, chain[0]) then Stall(env, tree, ex, chain[0])
    else RunChain(env, tree, Apply(tree, ex, chain[0]), chain[1..])
  }

  function TryExecute(env: Env, tree: Tree, ex: Exec, decided: Hash): Exec {
    RunChain(env, tree, ex, Chain(tree, ex.last, decided))
  }

  function RetryPending(env: Env, tree: Tree, ex: Exec, order: seq<Hash>): Exec
    decreases |order|
  {
    if order == [] || ex.panicked then ex
    else RetryPending(env, tree, TryExecute(env, tree, ex, order[0]), order[1..])
  }
}
