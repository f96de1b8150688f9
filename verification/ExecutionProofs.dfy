/** What deferred validation and execution keep, step by step. */
module ExecutionProofs {
  import opened Messages
  import opened Ancestry
  import opened Ledger
  import opened Merkle
  import opened Generator
  import opened Execution

  /** Reference: the state after simply applying blocks 0..k-1 to genesis. */
  function Fold(env: Env, k: nat): State {
    if k == 0 then env.genesis else ApplyBlock(Fold(env, k - 1), env.blocks(k - 1).txs)
  }

  // ----- the trace of executed nodes -----

  /** Heights 0,1,2,... without gap or repeat, each an ancestor of a decided node. */
  ghost predicate TraceOk(decided: set<Hash>, ex: Exec) {
    && |ex.executed| == ex.last + 1
    && forall k | 0 <= k < |ex.executed| :: TracedAt(decided, ex.executed[k], k)
  }

  ghost predicate TracedAt(decided: set<Hash>, h: Hash, k: nat) {
    h.NodeHash? && h.node.height == k && exists d :: d in decided && Extends(d, h)
  }

  lemma {:induction false} RunChainTrace(env: Env, tree: Tree, ex: Exec, chain: seq<Hash>, decided: set<Hash>, d: Hash)
    requires forall h | h in chain :: h in tree && Extends(d, h)
    requires TraceOk(decided, ex) && d in decided
    ensures TraceOk(decided, RunChain(env, tree, ex, chain))
    decreases |chain|
  {
    if chain != [] && !ex.panicked && Ready(tree, ex, chain[0]) {
      var ex' := Apply(tree, ex, chain[0]);
      assert TracedAt(decided, chain[0], ex.last + 1);
      RunChainTrace(env, tree, ex', chain[1..], decided, d);
    }
  }

  lemma TryExecuteTrace(env: Env, tree: Tree, ex: Exec, decided: set<Hash>, d: Hash)
    requires TraceOk(decided, ex) && d in decided
    ensures TraceOk(decided, TryExecute(env, tree, ex, d))
  {
    RunChainTrace(env, tree, ex, Chain(tree, ex.last, d), decided, d);
  }

  lemma {:induction false} RetryTrace(env: Env, tree: Tree, ex: Exec, order: seq<Hash>, decided: set<Hash>)
    requires TraceOk(decided, ex) && forall d | d in order :: d in decided
    ensures TraceOk(decided, RetryPending(env, tree, ex, order))
    decreases |order|
  {
    if order != [] && !ex.panicked {
      TryExecuteTrace(env, tree, ex, decided, order[0]);
      RetryTrace(env, tree, TryExecute(env, tree, ex, order[0]), order[1..], decided);
    }
  }

  // ----- the validation gate -----

  ghost predicate InFlight(requests: seq<Request>, h: Hash) {
    exists k :: 0 <= k < |requests| && requests[k].hash == h
  }

  /** A pending validation always has its request still queued, so its outcome will clear it. */
  ghost predicate GateOk(ex: Exec) {
    ex.pending.Some? ==> InFlight(ex.requests, ex.pending.value)
  }

  lemma KickGate(env: Env, tree: Tree, ex: Exec, h: Hash)
    requires GateOk(ex)
    ensures GateOk(MaybeKick(env, tree, ex, h))
  {
    var ex' := MaybeKick(env, tree, ex, h);
    if ex'.requests != ex.requests {
      assert ex'.requests[|ex.requests|].hash == h;
    }
  }

  lemma ValidatedGate(env: Env, ex: Exec, readable: bool)
    requires GateOk(ex) && ex.requests != []
    ensures GateOk(Validated(env, ex, readable))
  {
    var ex' := Validated(env, ex, readable);
    if ex'.pending.Some? {
      var k :| 0 <= k < |ex.requests| && ex.requests[k].hash == ex.pending.value;
      assert ex'.requests[k - 1] == ex.requests[k];
    }
  }

  // ----- caches of a re-executing node -----

  /** Executed nodes sit on height-consistent branches. */
  ghost predicate ExecutedConsistent(ex: Exec) {
    forall h | h in ex.executed :: HeightConsistent(h)
  }

  /** `s` is the state through the height of `h`, if `h` is consistent and not yet passed. */
  ghost predicate PostOk(env: Env, last: int, h: Hash, s: State) {
    h.NodeHash? && (HeightConsistent(h) && h.node.height > last ==> s == Fold(env, h.node.height + 1))
  }

  ghost predicate RequestOk(env: Env, last: int, q: Request) {
    && q.hash.NodeHash? && q.height == q.hash.node.height
    && (HeightConsistent(q.hash) && q.height > last ==> q.input == Fold(env, q.height))
  }

  /** The live state, and every cached or queued state of a consistent node, agrees with simply
      folding `apply_block`. */
  ghost predicate CacheOk(env: Env, ex: Exec) {
    && ex.last >= -1 && ex.live == Fold(env, ex.last + 1)
    && (forall h | h in ex.postState :: PostOk(env, ex.last, h, ex.postState[h]))
    && (forall k | 0 <= k < |ex.requests| :: RequestOk(env, ex.last, ex.requests[k]))
    && (forall h | h in ex.validation && ex.validation[h] ::
          h.NodeHash? && (h.node.height > ex.last ==> h in ex.postState))
  }

  lemma InputOk(env: Env, tree: Tree, ex: Exec, h: Hash)
    requires CacheOk(env, ex) && h in tree && HeightConsistent(h)
    ensures var input := InputState(tree, ex, tree[h]);
            input.Some? && tree[h].height > ex.last ==> input.value == Fold(env, tree[h].height)
  {
    var parent := tree[h].parent;
    if parent in tree && parent in ex.postState {
      assert PostOk(env, ex.last, parent, ex.postState[parent]);
    }
  }

  lemma KickCache(env: Env, tree: Tree, ex: Exec, h: Hash)
    requires CacheOk(env, ex)
    ensures CacheOk(env, MaybeKick(env, tree, ex, h))
  {
    if h in tree && HeightConsistent(h) {
      InputOk(env, tree, ex, h);
    }
  }

  lemma ValidatedCache(env: Env, ex: Exec, readable: bool)
    requires env.mode == Reexecute && CacheOk(env, ex) && ex.requests != []
    ensures CacheOk(env, Validated(env, ex, readable))
  {
    var q := ex.requests[0];
    assert RequestOk(env, ex.last, q);
    var ex' := Validated(env, ex, readable);
    forall k | 0 <= k < |ex'.requests| ensures RequestOk(env, ex.last, ex'.requests[k]) {
      assert ex'.requests[k] == ex.requests[k + 1];
    }
  }

  lemma ApplyCache(env: Env, tree: Tree, ex: Exec, h: Hash)
    requires CacheOk(env, ex) && h in tree && Ready(tree, ex, h) && HeightConsistent(h) && ex.preRoot == map[]
    ensures CacheOk(env, Apply(tree, ex, h))
  {
    var ex' := Apply(tree, ex, h);
    assert PostOk(env, ex.last, h, ex.postState[h]);
    forall g | g in ex'.postState ensures PostOk(env, ex'.last, g, ex'.postState[g]) {
      assert PostOk(env, ex.last, g, ex.postState[g]);
    }
    forall k | 0 <= k < |ex'.requests| ensures RequestOk(env, ex'.last, ex'.requests[k]) {
      assert RequestOk(env, ex.last, ex.requests[k]);
    }
  }

  // ----- roots of a verifying node -----

  /** Every transaction touches accounts of the dense genesis state. */
  ghost predicate DenseWorkload(env: Env) {
    Dense(env.genesis) && forall k: nat :: DenseAt(env, k)
  }

  ghost predicate DenseAt(env: Env, k: nat) {
    AccountsBelow(env.blocks(k).txs, Width(env.genesis))
  }

  /** Proof soundness: an accepted proof attests a guest run on that height's transactions over
      some dense state. */
  ghost predicate SoundProofs(env: Env) {
    forall k: nat :: SoundAt(env, k)
  }

  ghost predicate SoundAt(env: Env, k: nat) {
    env.blocks(k).proof.Some? ==> exists s :: AttestedFrom(env, k, s)
  }

  ghost predicate AttestedFrom(env: Env, k: nat, s: State)
    requires env.blocks(k).proof.Some?
  {
    var txs := env.blocks(k).txs;
    && Dense(s) && |ApplyBlock(s, txs).balances| <= 0x8000_0000
    && env.blocks(k).proof.value == Attested(s, txs)
  }

  /** The first proof claims to start at genesis; the node itself does not compare the two. */
  ghost predicate FromGenesis(env: Env) {
    env.blocks(0).proof.Some? ==> env.blocks(0).proof.value.pre == RootOrZero(env.genesis)
  }

  lemma {:induction false} FoldDense(env: Env, k: nat)
    requires DenseWorkload(env)
    ensures Dense(Fold(env, k)) && Width(Fold(env, k)) == Width(env.genesis)
  {
    if k > 0 {
      FoldDense(env, k - 1);
      assert DenseAt(env, k - 1);
      BlockKeepsWidth(Fold(env, k - 1), env.blocks(k - 1).txs);
    }
  }

  ghost predicate ClaimOk(env: Env, m: map<Hash, Digest>, pre: bool) {
    forall h | h in m ::
      && h.NodeHash? && env.blocks(h.node.height).proof.Some?
      && m[h] == if pre then env.blocks(h.node.height).proof.value.pre else env.blocks(h.node.height).proof.value.post
  }

  /** Cached roots are what the proofs claim, and are there for every validated node. */
  ghost predicate ClaimsOk(env: Env, ex: Exec) {
    && ClaimOk(env, ex.preRoot, true) && ClaimOk(env, ex.postRoot, false)
    && (forall k | 0 <= k < |ex.requests| ::
          ex.requests[k].hash.NodeHash? && ex.requests[k].height == ex.requests[k].hash.node.height)
    && (forall h | h in ex.validation && ex.validation[h] ::
          h.NodeHash? && h in ex.preRoot && (h.node.height > ex.last ==> h in ex.postRoot))
  }

  function RootOrZero(s: State): Digest {
    if Dense(s) then Root(s) else Zero
  }

  /** Root of the folded state, block by block. */
  function FoldRoot(env: Env): nat -> Digest {
    (k: nat) => RootOrZero(Fold(env, k))
  }

  /** Claims link up along `roots`: from a claim that starts at root k follows root k + 1. */
  ghost predicate LinkedBy(env: Env, roots: nat -> Digest) {
    forall k: nat :: LinkAt(env, roots, k)
  }

  ghost predicate LinkAt(env: Env, roots: nat -> Digest, k: nat) {
    env.blocks(k).proof.Some? ==>
      var claim := env.blocks(k).proof.value;
      k == 0 || claim.pre == roots(k) ==> claim.post == roots(k + 1)
  }

  /** A sound claim that starts at the folded root ends at the next one. */
  lemma SoundClaim(env: Env, k: nat)
    requires DenseWorkload(env) && SoundProofs(env) && env.blocks(k).proof.Some?
    ensures var claim := env.blocks(k).proof.value;
            claim.pre == RootOrZero(Fold(env, k)) ==> claim.post == RootOrZero(Fold(env, k + 1))
  {
    assert SoundAt(env, k) && DenseAt(env, k);
    var s :| AttestedFrom(env, k, s);
    FoldDense(env, k);
    ClaimedFrom(env, k, s);
  }

  /** The first proof claims the right post-root. */
  ghost predicate FirstClaimRight(env: Env) {
    env.blocks(0).proof.Some? ==> env.blocks(0).proof.value.post == RootOrZero(Fold(env, 1))
  }

  /** Starting at genesis is enough for that. */
  lemma GenesisClaimsRight(env: Env)
    requires DenseWorkload(env) && SoundProofs(env) && FromGenesis(env)
    ensures FirstClaimRight(env)
  {
    if env.blocks(0).proof.Some? { SoundClaim(env, 0); }
  }

  /** Sound proofs over a dense workload, the first one with the right post-root, link up along the
      folded roots. */
  lemma SoundProofsLink(env: Env)
    requires DenseWorkload(env) && SoundProofs(env) && FirstClaimRight(env)
    ensures LinkedBy(env, FoldRoot(env))
  {
    forall k: nat ensures LinkAt(env, FoldRoot(env), k) {
      if k == 0 { FirstLinks(env); } else { LaterLinks(env, k); }
    }
  }

  lemma FirstLinks(env: Env)
    requires FirstClaimRight(env)
    ensures LinkAt(env, FoldRoot(env), 0)
  {
  }

  lemma LaterLinks(env: Env, k: nat)
    requires DenseWorkload(env) && SoundProofs(env) && k > 0
    ensures LinkAt(env, FoldRoot(env), k)
  {
    if env.blocks(k).proof.Some? { SoundClaim(env, k); }
  }

  lemma AttestedLinks(s: State, t: State, txs: seq<Tx>)
    requires Dense(s) && Dense(t) && |ApplyBlock(s, txs).balances| <= 0x8000_0000 && AccountsBelow(txs, Width(t))
    ensures Attested(s, txs).pre == RootOrZero(t) ==> Attested(s, txs).post == RootOrZero(ApplyBlock(t, txs))
  {
    BlockKeepsWidth(t, txs);
    if Root(s) == Root(t) {
      RootDeterminesNextRoot(t, s, txs);
    }
  }

  lemma ClaimedFrom(env: Env, k: nat, s: State)
    requires env.blocks(k).proof.Some? && AttestedFrom(env, k, s)
    requires Dense(Fold(env, k)) && AccountsBelow(env.blocks(k).txs, Width(Fold(env, k)))
    ensures var claim := env.blocks(k).proof.value;
            claim.pre == RootOrZero(Fold(env, k)) ==> claim.post == RootOrZero(Fold(env, k + 1))
  {
    AttestedLinks(s, Fold(env, k), env.blocks(k).txs);
  }

  /** The chained root is the root of the executed height. */
  ghost predicate RootReached(roots: nat -> Digest, last: int, chained: Digest) {
    last >= 0 ==> chained == roots(last + 1)
  }

  ghost predicate RootsOk(env: Env, roots: nat -> Digest, ex: Exec) {
    ex.last >= -1 && RootReached(roots, ex.last, ex.chained) && ClaimsOk(env, ex)
  }

  /** The chained root is the post-root that the proof of the executed height claims. */
  ghost predicate ClaimedRoot(env: Env, last: int, chained: Digest) {
    last >= 0 ==> env.blocks(last).proof.Some? && chained == env.blocks(last).proof.value.post
  }

  ghost predicate ClaimedOk(env: Env, ex: Exec) {
    ex.last >= -1 && ClaimedRoot(env, ex.last, ex.chained) && ClaimsOk(env, ex)
  }

  lemma KickClaims(env: Env, tree: Tree, ex: Exec, h: Hash)
    requires ClaimsOk(env, ex)
    ensures var ex' := MaybeKick(env, tree, ex, h);
            ClaimsOk(env, ex') && ex'.last == ex.last && ex'.chained == ex.chained
  {
  }

  lemma ValidatedClaims(env: Env, ex: Exec, readable: bool)
    requires env.mode == Verify && ClaimsOk(env, ex) && ex.requests != []
    ensures var ex' := Validated(env, ex, readable);
            ClaimsOk(env, ex') && ex'.last == ex.last && ex'.chained == ex.chained
  {
    var ex' := Validated(env, ex, readable);
    forall k | 0 <= k < |ex'.requests|
      ensures ex'.requests[k].hash.NodeHash? && ex'.requests[k].height == ex'.requests[k].hash.node.height
    {
      assert ex'.requests[k] == ex.requests[k + 1];
    }
  }

  lemma ApplyClaims(env: Env, tree: Tree, ex: Exec, h: Hash)
    requires ClaimsOk(env, ex) && h in tree && Ready(tree, ex, h)
    ensures ClaimsOk(env, Apply(tree, ex, h))
  {
  }

  /** A validated node has a proof, and its claim is what is cached. */
  lemma ClaimAt(env: Env, tree: Tree, ex: Exec, h: Hash) returns (claim: BlockCommit)
    requires ClaimsOk(env, ex) && h in tree && Ready(tree, ex, h)
    ensures env.blocks(tree[h].height).proof == Some(claim) && Cached(ex, h, claim)
  {
    claim := env.blocks(tree[h].height).proof.value;
  }

  predicate Cached(ex: Exec, h: Hash, claim: BlockCommit) {
    h in ex.preRoot && ex.preRoot[h] == claim.pre && h in ex.postRoot && ex.postRoot[h] == claim.post
  }

  /** Executing a verified node checks its claimed pre-root and adopts its claimed post-root. */
  lemma ApplyChained(tree: Tree, ex: Exec, h: Hash, claim: BlockCommit)
    requires h in tree && Ready(tree, ex, h) && Cached(ex, h, claim)
    ensures var ex', k := Apply(tree, ex, h), tree[h].height;
            if k > 0 && claim.pre != ex.chained then ex'.last == k - 1 && ex'.chained == ex.chained
            else ex'.last == k && ex'.chained == claim.post
  {
  }

  lemma ApplyRoots(env: Env, roots: nat -> Digest, tree: Tree, ex: Exec, h: Hash)
    requires LinkedBy(env, roots) && RootsOk(env, roots, ex) && h in tree && Ready(tree, ex, h)
    ensures RootsOk(env, roots, Apply(tree, ex, h))
  {
    ApplyClaims(env, tree, ex, h);
    var claim := ClaimAt(env, tree, ex, h);
    assert LinkAt(env, roots, tree[h].height);
    RootAfter(roots, tree, ex, h, claim);
  }

  lemma ApplyClaimed(env: Env, tree: Tree, ex: Exec, h: Hash)
    requires ClaimedOk(env, ex) && h in tree && Ready(tree, ex, h)
    ensures ClaimedOk(env, Apply(tree, ex, h))
  {
    ApplyClaims(env, tree, ex, h);
    var claim := ClaimAt(env, tree, ex, h);
    ApplyChained(tree, ex, h, claim);
  }

  lemma RootAfter(roots: nat -> Digest, tree: Tree, ex: Exec, h: Hash, claim: BlockCommit)
    requires h in tree && Ready(tree, ex, h) && Cached(ex, h, claim) && RootReached(roots, ex.last, ex.chained)
    requires tree[h].height == 0 || claim.pre == roots(tree[h].height) ==> claim.post == roots(tree[h].height + 1)
    ensures var ex' := Apply(tree, ex, h); ex'.last >= -1 && RootReached(roots, ex'.last, ex'.chained)
  {
    ApplyChained(tree, ex, h, claim);
  }

  lemma BreakIff(roots: nat -> Digest, tree: Tree, ex: Exec, h: Hash, claim: BlockCommit)
    requires h in tree && Ready(tree, ex, h) && Cached(ex, h, claim) && RootReached(roots, ex.last, ex.chained)
    ensures ChainBreak(tree, ex, h) <==> tree[h].height > 0 && claim.pre != roots(tree[h].height)
  {
  }

  /** A chain break happens exactly when the claimed pre-root is not the root reached so far. */
  lemma ChainBreakIff(env: Env, roots: nat -> Digest, tree: Tree, ex: Exec, h: Hash)
    requires RootsOk(env, roots, ex) && h in tree && Ready(tree, ex, h)
    ensures env.blocks(tree[h].height).proof.Some?
    ensures ChainBreak(tree, ex, h)
       <==> tree[h].height > 0 && env.blocks(tree[h].height).proof.value.pre != roots(tree[h].height)
  {
    var claim := ClaimAt(env, tree, ex, h);
    BreakIff(roots, tree, ex, h, claim);
  }

  // ----- all of it together -----

  /** Every proof starts where the previous height ended. */
  ghost predicate PreLinked(env: Env, roots: nat -> Digest) {
    forall k: nat :: PreLinkAt(env, roots, k)
  }

  ghost predicate PreLinkAt(env: Env, roots: nat -> Digest, k: nat) {
    k > 0 && env.blocks(k).proof.Some? ==> env.blocks(k).proof.value.pre == roots(k)
  }

  /** With linked pre-roots no executable node breaks the chain. */
  lemma PreLinkedHolds(env: Env, roots: nat -> Digest, tree: Tree, ex: Exec, h: Hash)
    requires RootsOk(env, roots, ex) && PreLinked(env, roots) && h in tree && Ready(tree, ex, h)
    ensures !ChainBreak(tree, ex, h)
  {
    ChainBreakIff(env, roots, tree, ex, h);
    assert PreLinkAt(env, roots, tree[h].height);
  }

  /** The gate never wedges; a re-executing node that executed only consistent nodes keeps its
      caches right; a verifying node holds the root its last proof claims, and with linked proofs
      the right one. */
  ghost predicate CachesOk(env: Env, ex: Exec) {
    && GateOk(ex)
    && (env.mode == Reexecute ==> ex.preRoot == map[] && ex.postRoot == map[])
    && (env.mode == Reexecute && ExecutedConsistent(ex) ==> CacheOk(env, ex))
    && (env.mode == Verify ==> ClaimedOk(env, ex))
    && (env.mode == Verify && LinkedBy(env, FoldRoot(env)) ==> RootsOk(env, FoldRoot(env), ex))
  }

  lemma NewExecCaches(env: Env)
    ensures CachesOk(env, NewExec(env))
  {
  }

  lemma KickCaches(env: Env, tree: Tree, ex: Exec, h: Hash)
    requires CachesOk(env, ex)
    ensures CachesOk(env, MaybeKick(env, tree, ex, h))
  {
    KickGate(env, tree, ex, h);
    if env.mode == Reexecute && ExecutedConsistent(ex) { KickCache(env, tree, ex, h); }
    if env.mode == Verify { KickClaims(env, tree, ex, h); }
  }

  lemma ValidatedCaches(env: Env, ex: Exec, readable: bool)
    requires CachesOk(env, ex) && ex.requests != []
    ensures CachesOk(env, Validated(env, ex, readable))
  {
    ValidatedGate(env, ex, readable);
    if env.mode == Reexecute && ExecutedConsistent(ex) { ValidatedCache(env, ex, readable); }
    if env.mode == Verify { ValidatedClaims(env, ex, readable); }
  }

  /** Executing one node more: what was consistent before is what is consistent after without it. */
  lemma ApplyConsistent(tree: Tree, ex: Exec, h: Hash)
    requires h in tree && ExecutedConsistent(Apply(tree, ex, h)) && !ChainBreak(tree, ex, h)
    ensures ExecutedConsistent(ex) && HeightConsistent(h)
  {
    var after := Apply(tree, ex, h).executed;
    assert after == ex.executed + [h];
    assert after[|ex.executed|] == h;
    assert forall g | g in ex.executed :: g in after;
  }

  lemma ApplyCaches(env: Env, tree: Tree, ex: Exec, h: Hash)
    requires CachesOk(env, ex) && h in tree && Ready(tree, ex, h)
    ensures CachesOk(env, Apply(tree, ex, h))
  {
    if env.mode == Reexecute && ExecutedConsistent(Apply(tree, ex, h)) {
      ApplyConsistent(tree, ex, h);
      ApplyCache(env, tree, ex, h);
    }
    if env.mode == Verify { ApplyClaimed(env, tree, ex, h); }
    if env.mode == Verify && LinkedBy(env, FoldRoot(env)) { ApplyRoots(env, FoldRoot(env), tree, ex, h); }
  }

  lemma {:induction false} RunChainCaches(env: Env, tree: Tree, ex: Exec, chain: seq<Hash>)
    requires CachesOk(env, ex) && forall h | h in chain :: h in tree
    ensures CachesOk(env, RunChain(env, tree, ex, chain))
    decreases |chain|
  {
    if chain != [] && !ex.panicked {
      if Ready(tree, ex, chain[0]) {
        ApplyCaches(env, tree, ex, chain[0]);
        RunChainCaches(env, tree, Apply(tree, ex, chain[0]), chain[1..]);
      } else {
        KickCaches(env, tree, ex, chain[0]);
      }
    }
  }

  lemma {:induction false} RetryCaches(env: Env, tree: Tree, ex: Exec, order: seq<Hash>)
    requires CachesOk(env, ex)
    ensures CachesOk(env, RetryPending(env, tree, ex, order))
    decreases |order|
  {
    if order != [] && !ex.panicked {
      RunChainCaches(env, tree, ex, Chain(tree, ex.last, order[0]));
      RetryCaches(env, tree, TryExecute(env, tree, ex, order[0]), order[1..]);
    }
  }

  lemma {:induction false} KickPendingCaches(env: Env, tree: Tree, ex: Exec, order: seq<Hash>)
    requires CachesOk(env, ex)
    ensures CachesOk(env, KickPending(env, tree, ex, order))
    decreases |order|
  {
    if order != [] && ex.pending.None? && !ex.panicked {
      KickCaches(env, tree, ex, order[0]);
      KickPendingCaches(env, tree, MaybeKick(env, tree, ex, order[0]), order[1..]);
    }
  }

  /** Kicking validations executes nothing. */
  lemma {:induction false} KickPendingTrace(env: Env, tree: Tree, ex: Exec, order: seq<Hash>, decided: set<Hash>)
    requires TraceOk(decided, ex)
    ensures TraceOk(decided, KickPending(env, tree, ex, order))
    decreases |order|
  {
    if order != [] && ex.pending.None? && !ex.panicked {
      KickPendingTrace(env, tree, MaybeKick(env, tree, ex, order[0]), order[1..], decided);
    }
  }
}
