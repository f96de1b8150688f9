/** Nothing is left behind: after every turn all that can be executed is executed, and a validation
    that could start has been asked for or waits for a pending one (consensus/mod.rs, try_advance). */
module Progress {
  import opened Messages
  import opened Ancestry
  import opened Ledger
  import opened Execution
  import opened ExecutionOrder
  import opened Replicas
  import opened Pacemaker

  // ----- deferred validations -----

  /** A validation of `h` could start: it has no result, the workload has its block under its
      identifier, and the state below it is known. */
  predicate Startable(env: Env, tree: Tree, ex: Exec, h: Hash) {
    && h in tree && h !in ex.validation
    && tree[h].height < env.numBlocks && tree[h].cmd == env.blocks(tree[h].height).cmd
    && StateKnown(tree, ex, tree[h].parent)
  }

  /** The state after `parent` is the live one, or is cached. */
  predicate StateKnown(tree: Tree, ex: Exec, parent: Hash) {
    if parent == Genesis then ex.last == -1
    else parent in tree && (tree[parent].height <= ex.last || parent in ex.postState)
  }

  /** A validation is pending, or no known node is waiting for one that could start. */
  ghost predicate Idle(env: Env, tree: Tree, ex: Exec) {
    ex.pending.Some? || forall h | h in tree :: !Startable(env, tree, ex, h)
  }

  /** The state that a validation above `parent` starts from. */
  function StateBelow(tree: Tree, ex: Exec, parent: Hash): State
    requires StateKnown(tree, ex, parent)
  {
    if parent != Genesis && tree[parent].height > ex.last then ex.postState[parent] else ex.live
  }

  /** Exactly when a kick asks for a validation, aborts, or does nothing, and what it asks for. */
  lemma KickLaw(env: Env, tree: Tree, ex: Exec, h: Hash)
    requires ex.last >= -1
    ensures var ex' := MaybeKick(env, tree, ex, h);
            if h !in tree || h in ex.validation || ex.pending == Some(h) then ex' == ex
            else if tree[h].height >= env.numBlocks then ex' == ex.(panicked := true)
            else if !Startable(env, tree, ex, h) then ex' == ex
            else
              && SameButQueue(ex, ex') && ex'.pending == Some(h)
              && ex'.requests == ex.requests + [Request(h, tree[h].height, StateBelow(tree, ex, tree[h].parent))]
  {
  }

  /** Asking for validations changes only the queue and the pending mark. */
  predicate SameButQueue(ex: Exec, ex': Exec) {
    ex' == ex.(pending := ex'.pending, requests := ex'.requests)
  }

  /** The sweep over the tree asks for at most one validation, and for none while one is pending. */
  lemma {:induction false} KickPendingOne(env: Env, tree: Tree, ex: Exec, order: seq<Hash>)
    ensures var ex' := KickPending(env, tree, ex, order);
            && ex.requests <= ex'.requests && |ex'.requests| <= |ex.requests| + 1
            && (ex.pending.Some? ==> ex' == ex)
    decreases |order|
  {
    if order != [] && ex.pending.None? && !ex.panicked {
      KickPendingOne(env, tree, MaybeKick(env, tree, ex, order[0]), order[1..]);
    }
  }

  lemma {:induction false} KickPendingExhausts(env: Env, tree: Tree, ex: Exec, order: seq<Hash>)
    requires ex.last >= -1
    ensures var ex' := KickPending(env, tree, ex, order);
            || ex'.panicked || ex'.pending.Some?
            || (ex' == ex && forall h | h in order :: !Startable(env, tree, ex, h))
    decreases |order|
  {
    if order != [] && ex.pending.None? && !ex.panicked {
      KickLaw(env, tree, ex, order[0]);
      KickPendingExhausts(env, tree, MaybeKick(env, tree, ex, order[0]), order[1..]);
    }
  }

  lemma KickPendingIdles(env: Env, tree: Tree, ex: Exec, order: seq<Hash>)
    requires Enumerates(order, tree.Keys) && ex.last >= -1
    ensures var ex' := KickPending(env, tree, ex, order); ex'.panicked || Idle(env, tree, ex')
  {
    KickPendingExhausts(env, tree, ex, order);
  }

  // ----- no cached node is asked for again -----

  /** New requests go to the end of the queue and are for nodes without a cached result. */
  ghost predicate AsksFresh(ex: Exec, ex': Exec) {
    && ex'.validation == ex.validation && ex.requests <= ex'.requests
    && forall j | |ex.requests| <= j < |ex'.requests| :: ex'.requests[j].hash !in ex'.validation
  }

  lemma AsksTransitive(a: Exec, b: Exec, c: Exec)
    requires AsksFresh(a, b) && AsksFresh(b, c)
    ensures AsksFresh(a, c)
  {
  }

  lemma KickAsks(env: Env, tree: Tree, ex: Exec, h: Hash)
    ensures AsksFresh(ex, MaybeKick(env, tree, ex, h))
  {
  }

  lemma {:induction false} KickPendingAsks(env: Env, tree: Tree, ex: Exec, order: seq<Hash>)
    ensures AsksFresh(ex, KickPending(env, tree, ex, order))
    decreases |order|
  {
    if order != [] && ex.pending.None? && !ex.panicked {
      KickAsks(env, tree, ex, order[0]);
      KickPendingAsks(env, tree, MaybeKick(env, tree, ex, order[0]), order[1..]);
    }
  }

  lemma {:induction false} RunChainAsks(env: Env, tree: Tree, ex: Exec, chain: seq<Hash>)
    requires forall h | h in chain :: h in tree
    ensures AsksFresh(ex, RunChain(env, tree, ex, chain))
    decreases |chain|
  {
    if chain != [] && !ex.panicked {
      if Ready(tree, ex, chain[0]) {
        RunChainAsks(env, tree, Apply(tree, ex, chain[0]), chain[1..]);
      } else {
        KickAsks(env, tree, ex, chain[0]);
      }
    }
  }

  lemma {:induction false} RetryAsks(env: Env, tree: Tree, ex: Exec, order: seq<Hash>)
    ensures AsksFresh(ex, RetryPending(env, tree, ex, order))
    decreases |order|
  {
    if order != [] && !ex.panicked {
      RunChainAsks(env, tree, ex, Chain(tree, ex.last, order[0]));
      RetryAsks(env, tree, TryExecute(env, tree, ex, order[0]), order[1..]);
    }
  }

  lemma FireAsks(env: Env, r: Replica, rule: Rule)
    requires ValidEnv(env)
    ensures AsksFresh(r.exec, Fire(env, r, rule).exec)
  {
    match rule
    case ProposeRule(high) =>
      if LeaderPrepare(env, r, high) != r {
        var height := NextHeight(r.core.tree, high).value;
        var leaf := Node(JustifiedNode(high), env.blocks(height).cmd, height);
        KickAsks(env, r.core.tree[NodeHash(leaf) := leaf], r.exec, NodeHash(leaf));
      }
    case DecideRule =>
      if (Decide, r.core.view) in r.core.staged {
        var h := r.core.staged[(Decide, r.core.view)].node;
        RunChainAsks(env, r.core.tree, r.exec, Chain(r.core.tree, r.exec.last, h));
      }
    case RetryRule(order) => RetryAsks(env, r.core.tree, r.exec, order);
    case KickRule(order) => KickPendingAsks(env, r.core.tree, r.exec, order);
    case _ =>
  }

  lemma {:induction false} FireAllAsks(env: Env, r: Replica, rules: seq<Rule>)
    requires ValidEnv(env)
    ensures AsksFresh(r.exec, FireAll(env, r, rules).exec)
    decreases |rules|
  {
    if rules != [] {
      var mid := FireAll(env, r, rules[..|rules| - 1]);
      FireAllAsks(env, r, rules[..|rules| - 1]);
      FireAsks(env, mid, rules[|rules| - 1]);
      AsksTransitive(r.exec, mid.exec, FireAll(env, r, rules).exec);
    }
  }

  /** What was queued and not served is still queued, and what was added is not cached. */
  ghost predicate QueuedFresh(left: seq<Request>, ex': Exec) {
    left <= ex'.requests && forall j | |left| <= j < |ex'.requests| :: ex'.requests[j].hash !in ex'.validation
  }

  lemma HandleAsks(env: Env, r: Replica, ev: Event)
    requires ValidEnv(env) && EventOk(r, ev) && !ev.ValidationDone?
    ensures AsksFresh(r.exec, Handle(env, r, ev).exec)
  {
    if ev.Deliver? && ev.msg.Proposal? {
      KickAsks(env, r.core.tree[NodeHash(ev.msg.node) := ev.msg.node], r.exec, NodeHash(ev.msg.node));
    }
  }

  lemma TurnAsks(env: Env, r: Replica, ev: Event, rules: seq<Rule>, r': Replica)
    requires ValidEnv(env) && Turn(env, r, ev, rules, r')
    ensures QueuedFresh(if ev.ValidationDone? then r.exec.requests[1..] else r.exec.requests, r'.exec)
  {
    var r0 := Handle(env, r, ev);
    FireAllAsks(env, r0, rules);
    if !ev.ValidationDone? {
      HandleAsks(env, r, ev);
      AsksTransitive(r.exec, r0.exec, r'.exec);
    }
  }

  // ----- deferred executions -----

  /** The next node of a decided branch, where all between is known, has no true result, and is
      being validated if it has none and could be. */
  ghost predicate Settled(env: Env, tree: Tree, decided: set<Hash>, ex: Exec) {
    forall d, h | d in decided && Linked(tree, ex.last, d) && Extends(d, h) && NextUp(ex.last, h) ::
      Waits(env, tree, ex, h)
  }

  predicate Waits(env: Env, tree: Tree, ex: Exec, h: Hash) {
    && !(h in ex.validation && ex.validation[h])
    && (Startable(env, tree, ex, h) ==> ex.pending == Some(h))
  }

  predicate NextUp(last: int, h: Hash) {
    h.NodeHash? && h.node.height == last + 1
  }

  /** The next node of some decided branch is validated and does not continue the chain of roots. */
  ghost predicate ChainBroken(tree: Tree, decided: set<Hash>, ex: Exec) {
    exists d, h :: d in decided && BreaksAt(tree, ex, d, h)
  }

  lemma {:induction false} KickPendingQueue(env: Env, tree: Tree, ex: Exec, order: seq<Hash>)
    ensures var ex' := KickPending(env, tree, ex, order); ex'.last == ex.last && (ex'.panicked || SameButQueue(ex, ex'))
    decreases |order|
  {
    if order != [] && ex.pending.None? && !ex.panicked {
      KickPendingQueue(env, tree, MaybeKick(env, tree, ex, order[0]), order[1..]);
    }
  }

  lemma SettledIgnoresQueue(env: Env, tree: Tree, decided: set<Hash>, ex: Exec, ex': Exec)
    requires SameButQueue(ex, ex') && (ex.pending.Some? ==> ex'.pending == ex.pending)
    requires Settled(env, tree, decided, ex) && !ChainBroken(tree, decided, ex)
    ensures Settled(env, tree, decided, ex') && !ChainBroken(tree, decided, ex')
  {
    forall d, h | d in decided && BreaksAt(tree, ex', d, h) ensures false {
      assert BreaksAt(tree, ex, d, h);
    }
    forall d, h | d in decided && Linked(tree, ex'.last, d) && Extends(d, h) && NextUp(ex'.last, h)
      ensures Waits(env, tree, ex', h)
    {
      assert Waits(env, tree, ex, h) && Startable(env, tree, ex', h) == Startable(env, tree, ex, h);
    }
  }

  /** Decided nodes lie on one height-consistent branch. */
  ghost predicate OneDecidedBranch(decided: set<Hash>) {
    forall a, b | a in decided && b in decided :: OneBranch(a, b)
  }

  /** A branch on which execution makes no progress has no validated next node. */
  lemma StuckBefore(env: Env, tree: Tree, ex: Exec, d: Hash, h: Hash)
    requires HeightConsistent(d) && d.NodeHash? && ex.last >= -1 && !ex.panicked
    requires TryExecute(env, tree, ex, d) == ex
    requires Linked(tree, ex.last, d) && Extends(d, h) && NextUp(ex.last, h)
    ensures Waits(env, tree, ex, h)
  {
    AncestorHeight(d, h);
    Unfold(env, tree, ex, d);
    var c := FirstAbove(ex.last, d);
    FirstAboveProps(ex.last, d);
    UniqueAtHeight(d, c, h);
    if Ready(tree, ex, c) {
      var ex' := Apply(tree, ex, c);
      if ex'.panicked { PanickedStops(env, tree, ex', d); } else { LastBounds(env, tree, ex', d); }
    } else {
      KickLaw(env, tree, ex, c);
    }
  }

  lemma RetrySettled(env: Env, tree: Tree, decided: set<Hash>, ex: Exec, order: seq<Hash>)
    requires Enumerates(order, decided) && OneDecidedBranch(decided) && ex.last >= -1
    ensures var end := RetryPending(env, tree, ex, order);
            end.panicked || (Settled(env, tree, decided, end) && !ChainBroken(tree, decided, end))
  {
    var end := RetryPending(env, tree, ex, order);
    RetryLast(env, tree, ex, order);
    forall d | d in decided ensures OneBranch(d, d) && TryExecute(env, tree, end, d) == end {
      RetryComplete(env, tree, ex, order, d);
    }
    if !end.panicked {
      forall d, h | d in decided && Linked(tree, end.last, d) && Extends(d, h) && NextUp(end.last, h)
        ensures Waits(env, tree, end, h)
      {
        StuckBefore(env, tree, end, d, h);
      }
      forall d, h | d in decided && BreaksAt(tree, end, d, h) ensures false {
        BreakPanics(env, tree, end, d, h);
      }
    }
  }

  // ----- a whole turn -----

  /** Halted, or nothing that could run or be asked for is left undone. */
  ghost predicate CaughtUp(env: Env, r: Replica) {
    r.exec.panicked
    || (Idle(env, r.core.tree, r.exec)
        && (OneDecidedBranch(r.core.decided) ==>
              Settled(env, r.core.tree, r.core.decided, r.exec) && !ChainBroken(r.core.tree, r.core.decided, r.exec)))
  }

  lemma EndCatchesUp(env: Env, r: Replica, retry: Rule, kick: Rule)
    requires ValidEnv(env) && r.exec.last >= -1 && retry.RetryRule? && kick.KickRule?
    requires RuleOk(env, r, retry) && RuleOk(env, Fire(env, r, retry), kick)
    ensures CaughtUp(env, Fire(env, Fire(env, r, retry), kick))
  {
    var r1 := Fire(env, r, retry);
    if !r1.exec.panicked && !Fire(env, r1, kick).exec.panicked {
      var tree, decided := r.core.tree, r.core.decided;
      RetryLast(env, tree, r.exec, retry.order);
      KickPendingIdles(env, tree, r1.exec, kick.order);
      if OneDecidedBranch(decided) {
        RetrySettled(env, tree, decided, r.exec, retry.order);
        KickPendingQueue(env, tree, r1.exec, kick.order);
        KickPendingOne(env, tree, r1.exec, kick.order);
        SettledIgnoresQueue(env, tree, decided, r1.exec, KickPending(env, tree, r1.exec, kick.order));
      }
    }
  }

  lemma {:induction false} RuleOkAt(env: Env, r: Replica, rules: seq<Rule>, k: nat)
    requires ValidEnv(env) && RulesOk(env, r, rules) && k < |rules|
    ensures RuleOk(env, FireAll(env, r, rules[..k]), rules[k])
    decreases |rules|
  {
    var front := rules[..|rules| - 1];
    if k < |front| {
      RuleOkAt(env, r, front, k);
      assert front[..k] == rules[..k];
    }
  }

  lemma {:induction false} RunChainLast(env: Env, tree: Tree, ex: Exec, chain: seq<Hash>)
    requires ex.last >= -1 && forall h | h in chain :: h in tree
    ensures RunChain(env, tree, ex, chain).last >= -1
    decreases |chain|
  {
    if chain != [] && !ex.panicked && Ready(tree, ex, chain[0]) {
      RunChainLast(env, tree, Apply(tree, ex, chain[0]), chain[1..]);
    }
  }

  lemma {:induction false} RetryLast(env: Env, tree: Tree, ex: Exec, order: seq<Hash>)
    requires ex.last >= -1
    ensures RetryPending(env, tree, ex, order).last >= -1
    decreases |order|
  {
    if order != [] && !ex.panicked {
      RunChainLast(env, tree, ex, Chain(tree, ex.last, order[0]));
      RetryLast(env, tree, TryExecute(env, tree, ex, order[0]), order[1..]);
    }
  }

  lemma FireLast(env: Env, r: Replica, rule: Rule)
    requires ValidEnv(env) && r.exec.last >= -1
    ensures Fire(env, r, rule).exec.last >= -1
  {
    match rule
    case DecideRule =>
      if (Decide, r.core.view) in r.core.staged {
        var h := r.core.staged[(Decide, r.core.view)].node;
        RunChainLast(env, r.core.tree, r.exec, Chain(r.core.tree, r.exec.last, h));
      }
    case RetryRule(order) => RetryLast(env, r.core.tree, r.exec, order);
    case KickRule(order) => KickPendingQueue(env, r.core.tree, r.exec, order);
    case _ =>
  }

  lemma {:induction false} FireAllLast(env: Env, r: Replica, rules: seq<Rule>)
    requires ValidEnv(env) && r.exec.last >= -1
    ensures FireAll(env, r, rules).exec.last >= -1
    decreases |rules|
  {
    if rules != [] {
      FireAllLast(env, r, rules[..|rules| - 1]);
      FireLast(env, FireAll(env, r, rules[..|rules| - 1]), rules[|rules| - 1]);
    }
  }

  lemma PassCatchesUp(env: Env, r: Replica, rules: seq<Rule>)
    requires ValidEnv(env) && IsPass(rules) && RulesOk(env, r, rules) && r.exec.last >= -1
    ensures CaughtUp(env, FireAll(env, r, rules))
  {
    FireAllLast(env, r, rules[..8]);
    PassEndCatchesUp(env, r, rules);
  }

  lemma PassEndCatchesUp(env: Env, r: Replica, rules: seq<Rule>)
    requires ValidEnv(env) && IsPass(rules) && RulesOk(env, r, rules) && FireAll(env, r, rules[..8]).exec.last >= -1
    ensures CaughtUp(env, FireAll(env, r, rules))
  {
    RuleOkAt(env, r, rules, 8);
    RuleOkAt(env, r, rules, 9);
    FireNext(env, r, rules, 8);
    FireNext(env, r, rules, 9);
    assert rules[..10] == rules;
    EndCatchesUp(env, FireAll(env, r, rules[..8]), rules[8], rules[9]);
  }

  /** Whatever the event was, the turn ends with the replica caught up. */
  lemma TurnCatchesUp(env: Env, r: Replica, ev: Event, rules: seq<Rule>, r': Replica)
    requires ValidEnv(env) && Turn(env, r, ev, rules, r') && r.exec.last >= -1
    ensures CaughtUp(env, r')
  {
    if !Handle(env, r, ev).exec.panicked {
      PassCatchesUp(env, Handle(env, r, ev), rules);
    }
  }
}
