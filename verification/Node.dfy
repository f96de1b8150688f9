/** The replica as the program runs it: one object updated in place
    (node/consensus-node/src/state.rs, consensus/rules.rs, consensus/handlers.rs,
    consensus/execute.rs, consensus/mod.rs, validator.rs, main.rs).

    Every method is proved to move `Value()` as the function of Replica.dfy that the runs of
    System.dfy are made of. Iteration over a hash map picks an arbitrary order. */
module Nodes {
  import opened Messages
  import opened Quorums
  import opened Certificates
  import opened Ancestry
  import opened Ledger
  import opened Execution
  import opened Replicas

  /** Iterate over a hash set. */
  method Collect(s: set<Hash>) returns (order: seq<Hash>)
    ensures Enumerates(order, s)
  {
    order := [];
    var todo := s;
    while todo != {}
      invariant todo <= s && |order| == |s| - |todo|
      invariant forall x :: x in order <==> x in s && x !in todo
      decreases todo
    {
      var x :| x in todo;
      order := order + [x];
      todo := todo - {x};
    }
  }

  /** `run_validation`: the re-executing branch applies the block to its own snapshot. */
  method Validate(env: Env, req: Request, readable: bool) returns (out: Outcome)
    ensures out == RunValidation(env, req, readable)
  {
    var invalid := Outcome(req.hash, false, None, None, None);
    if !readable {
      return invalid;
    }
    match env.mode {
      case Reexecute =>
        var s := new StateCell(req.input.balances);
        var applied := s.Apply(env.blocks(req.height).txs);
        out := Outcome(req.hash, true, Some(s.Value()), None, None);
      case Verify =>
        match env.blocks(req.height).proof
        case None => out := invalid;
        case Some(commit) => out := Outcome(req.hash, true, None, Some(commit.post), Some(commit.pre));
    }
  }

  /** `safe_node`. */
  method CheckSafe(node: Node, qc: Option<QC>, locked: Option<QC>, tree: Tree) returns (ok: bool)
    ensures ok == SafeNode(node, qc, locked, tree)
  {
    if locked.None? {
      return true;
    }
    var reaches := CheckExtends(node, locked.value.node, tree);
    ok := reaches || (qc.Some? && qc.value.view > locked.value.view);
  }

  /** The list backwards. */
  function Flip(s: seq<Hash>): seq<Hash> {
    if s == [] then [] else [s[|s| - 1]] + Flip(s[..|s| - 1])
  }

  /** The ancestor walk of `try_execute_chain`: collected downwards, then reversed. */
  method BuildChain(tree: Tree, last: int, decided: Hash) returns (chain: seq<Hash>)
    ensures chain == Chain(tree, last, decided)
  {
    var walked: seq<Hash> := [];
    var cur := decided;
    while cur in tree
      invariant Chain(tree, last, decided) == Chain(tree, last, cur) + Flip(walked)
      decreases cur
    {
      if tree[cur].height <= last {
        break;
      }
      walked := walked + [cur];
      assert walked[..|walked| - 1] + [cur] == walked;
      if tree[cur].parent == Genesis {
        return Flip(walked);
      }
      cur := tree[cur].parent;
    }
    chain := Flip(walked);
  }

  /** One more rule of a pass that `start` began. */
  lemma Noted(env: Env, start: Replica, rules: seq<Rule>, rule: Rule)
    requires ValidEnv(env) && RulesOk(env, start, rules) && RuleOk(env, FireAll(env, start, rules), rule)
    ensures RulesOk(env, start, rules + [rule])
    ensures FireAll(env, start, rules + [rule]) == Fire(env, FireAll(env, start, rules), rule)
  {
    assert (rules + [rule])[..|rules|] == rules;
  }

  class ReplicaState {
    const env: Env

    var view: nat
    var lockedQc: Option<QC>
    var prepareQc: Option<QC>
    var lastExecuted: int
    var viewData: Views
    var tree: Tree
    var validation: map<Hash, bool>
    var pending: Option<Hash>
    var postState: map<Hash, State>
    var postRoot: map<Hash, Digest>
    var preRoot: map<Hash, Digest>
    var decided: set<Hash>
    var staged: map<(MsgType, nat), QC>
    var timeout: nat

    // Owned by the main loop.
    var live: State
    var chained: Digest
    var panicked: bool

    // Channels: the validator's queue, messages sent, timers armed.
    var requests: seq<Request>
    var outbox: set<Envelope>
    var timers: set<nat>

    // History.
    ghost var executed: seq<Hash>
    ghost var signed: seq<Ballot>
    ghost var entered: seq<Cause>

    ghost function Value(): Replica
      reads this
    {
      Replica(Core(view, lockedQc, prepareQc, viewData, tree, decided, staged, timeout),
              Exec(lastExecuted, validation, pending, postState, postRoot, preRoot,
                   live, chained, requests, executed, panicked),
              Io(outbox, signed, timers, entered))
    }

    constructor (env: Env)
      ensures this.env == env && Value() == NewReplica(env)
    {
      this.env := env;
      view, lockedQc, prepareQc, lastExecuted := 0, None, None, -1;
      viewData, tree, validation, pending := map[], map[], map[], None;
      postState, postRoot, preRoot, decided, staged := map[], map[], map[], {}, map[];
      timeout := env.base;
      live := if env.mode == Reexecute then env.genesis else Ledger.State(map[]);
      chained, panicked := Zero, false;
      requests, outbox, timers := [], {}, {};
      executed, signed, entered := [], [], [];
    }

    // ----- single updates -----

    method SetCurrent(v: nat)
      modifies this
      ensures Value() == old(Value()).(core := old(Value()).core.(view := v))
    {
      view := v;
    }

    /** `vd_mut(v)` and an assignment to the entry. */
    method SetVd(v: nat, d: ViewData)
      modifies this
      ensures Value() == old(Value()).(core := PutVd(old(Value()).core, v, d))
    {
      viewData := viewData[v := d];
    }

    method SetTimeout(ms: nat)
      modifies this
      ensures Value() == old(Value()).(core := old(Value()).core.(timeout := ms))
    {
      timeout := ms;
    }

    method AddNode(node: Node)
      modifies this
      ensures Value() == old(Value()).(core := old(Value()).core.(tree := old(tree)[NodeHash(node) := node]))
    {
      tree := tree[NodeHash(node) := node];
    }

    method AddDecided(h: Hash)
      modifies this
      ensures Value() == old(Value()).(core := old(Value()).core.(decided := old(decided) + {h}))
    {
      decided := decided + {h};
    }

    method AddStaged(kind: MsgType, v: nat, qc: QC)
      modifies this
      ensures Value() == old(Value()).(core := old(Value()).core.(staged := old(staged)[(kind, v) := qc]))
    {
      staged := staged[(kind, v) := qc];
    }

    /** `send_to`. */
    method Send(to: nat, msg: Wire)
      modifies this
      ensures Value() == old(Value()).(io := old(Value()).io.(outbox := old(outbox) + {Envelope(to, msg)}))
    {
      outbox := outbox + {Envelope(to, msg)};
    }

    /** `broadcast`: to every peer, never to itself. */
    method Broadcast(msg: Wire)
      modifies this
      ensures Value() == old(Value()).(io := old(Value()).io.(outbox := old(outbox) + ToPeers(env, msg)))
    {
      outbox := outbox + ToPeers(env, msg);
    }

    // ----- views and timers -----

    /** `enter_new_view`. */
    method Enter(newView: nat, ghost cause: Cause)
      requires ValidEnv(env) && newView == view + 1
      modifies this
      ensures Value() == EnterNewView(env, old(Value()), cause)
    {
      var prev := view;
      SetCurrent(newView);
      var next := Leader(env.n, newView);
      if next == env.me {
        var d := At(viewData, prev);
        SetVd(prev, d.(newViews := d.newViews[env.me := prepareQc]));
      } else {
        Send(next, NewViewMsg(prev, prepareQc, env.me));
      }
      timers := timers + {newView};
      entered := entered + [cause];
    }

    /** `start_protocol`. */
    method Begin()
      requires ValidEnv(env)
      modifies this
      ensures Value() == StartProtocol(env, old(Value()))
    {
      SetCurrent(0);
      Enter(1, Start);
    }

    /** `handle_timer`, for a timer that just fired. */
    method Expire(v: nat)
      requires ValidEnv(env)
      modifies this
      ensures Value() == HandleTimer(env, old(Value()), v)
    {
      timers := timers - {v};
      if v != view {
        return;
      }
      if Decide in At(viewData, view).seen {
        return;
      }
      SetTimeout(SaturatingDouble(timeout));
      Enter(view + 1, Timeout);
    }

    // ----- validation -----

    /** `maybe_kick_validation`. */
    method Kick(h: Hash)
      modifies this
      ensures Value() == old(Value()).(exec := MaybeKick(env, tree, old(Value()).exec, h))
    {
      if h in validation || pending == Some(h) || h !in tree {
        return;
      }
      var node := tree[h];
      if node.height >= env.numBlocks {
        panicked := true;
        return;
      }
      if env.blocks(node.height).cmd != node.cmd {
        return;
      }
      var input := live;
      if node.parent == Genesis {
        if lastExecuted >= 0 {
          return;
        }
      } else {
        if node.parent !in tree {
          return;
        }
        if tree[node.parent].height > lastExecuted {
          if node.parent !in postState {
            return;
          }
          input := postState[node.parent];
        }
      }
      pending := Some(h);
      requests := requests + [Request(h, node.height, input)];
    }

    /** `ingest_validation`. */
    method Absorb(out: Outcome)
      modifies this
      ensures Value() == old(Value()).(exec := Ingest(old(Value()).exec, out))
    {
      validation := validation[out.hash := out.valid];
      CacheOutcome(out);
      if pending == Some(out.hash) {
        pending := None;
      }
    }

    method CacheOutcome(out: Outcome)
      modifies this
      ensures Value() == old(Value()).(exec := CachedOutcome(old(Value()).exec, out))
    {
      if out.postState.Some? {
        postState := postState[out.hash := out.postState.value];
      }
      if out.postRoot.Some? {
        postRoot := postRoot[out.hash := out.postRoot.value];
      }
      if out.preRoot.Some? {
        preRoot := preRoot[out.hash := out.preRoot.value];
      }
    }

    /** The worker serves its oldest request and the loop folds in the outcome. */
    method FinishValidation(readable: bool)
      requires requests != []
      modifies this
      ensures Value() == old(Value()).(exec := Validated(env, old(Value()).exec, readable))
    {
      var req := requests[0];
      requests := requests[1..];
      var out := Validate(env, req, readable);
      Absorb(out);
    }

    // ----- incoming messages -----

    method CheckJustify(justify: Option<QC>) returns (ok: bool)
      requires ValidEnv(env)
      ensures ok == AcceptsJustify(env, justify)
    {
      ok := true;
      if justify.Some? {
        ok := VerifyQc(justify.value, Quorum(env.n), KeyMap(env.n));
      }
    }

    method ReceiveProposal(v: nat, node: Node, justify: Option<QC>, sender: nat)
      requires ValidEnv(env)
      modifies this
      ensures Value() == HandleProposal(env, old(Value()), v, node, justify, sender)
    {
      if sender != Leader(env.n, v) {
        return;
      }
      var ok := CheckJustify(justify);
      if !ok || node.parent != JustifiedNode(justify) {
        return;
      }
      AddNode(node);
      var d := At(viewData, v);
      if d.proposal.None? {
        SetVd(v, d.(proposal := Some((node, justify))));
      }
      Kick(NodeHash(node));
    }

    method ReceivePhaseQc(kind: MsgType, v: nat, cert: QC, sender: nat)
      requires ValidEnv(env)
      modifies this
      ensures Value() == HandlePhaseQc(env, old(Value()), kind, v, cert, sender)
    {
      if sender != Leader(env.n, v) || CertKind(kind) != Some(cert.kind) || cert.view != v {
        return;
      }
      var ok := VerifyQc(cert, Quorum(env.n), KeyMap(env.n));
      if !ok {
        return;
      }
      var d := At(viewData, v);
      if kind !in d.seen {
        if kind == Decide {
          AddDecided(cert.node);
        }
        SetVd(v, d.(seen := d.seen + {kind}));
        AddStaged(kind, v, cert);
      }
    }

    method ReceiveVote(kind: MsgType, v: nat, hash: Hash, voter: nat, sig: Sig)
      requires ValidEnv(env)
      modifies this
      ensures Value() == HandleVote(env, old(Value()), kind, v, hash, voter, sig)
    {
      if Leader(env.n, v) != env.me {
        return;
      }
      if voter != env.me {
        if voter !in KeyMap(env.n) || !VerifyVoteSig(KeyMap(env.n)[voter], kind, v, hash, sig) {
          return;
        }
      }
      if !VoteKind(kind) {
        return;
      }
      var d := At(viewData, v);
      if voter !in Bucket(d.votes, kind) {
        SetVd(v, d.(votes := AddVote(d.votes, kind, voter, (hash, sig))));
      }
    }

    method ReceiveNewView(v: nat, justify: Option<QC>, sender: nat)
      requires ValidEnv(env)
      modifies this
      ensures Value() == HandleNewView(env, old(Value()), v, justify, sender)
    {
      if Leader(env.n, v + 1) != env.me {
        return;
      }
      var ok := CheckJustify(justify);
      if !ok {
        return;
      }
      var d := At(viewData, v);
      if sender !in d.newViews {
        SetVd(v, d.(newViews := d.newViews[sender := justify]));
      }
    }

    /** `handle_msg`. */
    method Receive(msg: Wire)
      requires ValidEnv(env)
      modifies this
      ensures Value() == HandleMsg(env, old(Value()), msg)
    {
      match msg
      case Hello(_) =>
      case Proposal(v, node, justify, sender) => ReceiveProposal(v, node, justify, sender);
      case PhaseQc(kind, v, cert, sender) => ReceivePhaseQc(kind, v, cert, sender);
      case Vote(kind, v, hash, voter, sig) => ReceiveVote(kind, v, hash, voter, sig);
      case NewViewMsg(v, justify, sender) => ReceiveNewView(v, justify, sender);
    }

    // ----- rules -----

    /** The guards and the highQC of `leader_prepare`. */
    method ChooseHigh() returns (go: bool, high: Option<QC>)
      requires ValidEnv(env)
      ensures go <==> CanPropose(env, Value())
      ensures go ==> Highest(Vd(Value().core, PrevView(Value().core)).newViews, high)
    {
      go, high := false, None;
      if Leader(env.n, view) != env.me || Prepare in At(viewData, view).sent {
        return;
      }
      var prev := if view == 0 then 0 else view - 1;
      var msgs := At(viewData, prev).newViews;
      if |msgs| < Quorum(env.n) {
        return;
      }
      go := true;
      high := HighQc(msgs);
    }

    /** `leader_prepare`. */
    method Propose() returns (ghost high: Option<QC>)
      requires ValidEnv(env)
      modifies this
      ensures RuleOk(env, old(Value()), ProposeRule(high))
      ensures Value() == LeaderPrepare(env, old(Value()), high)
    {
      var go, highQc := ChooseHigh();
      high := highQc;
      if !go {
        return;
      }
      var v, height := view, 0;
      if highQc.Some? {
        if highQc.value.node !in tree {
          return;
        }
        height := tree[highQc.value.node].height + 1;
      }
      if height >= env.numBlocks {
        return;
      }
      var leaf := Node(JustifiedNode(highQc), env.blocks(height).cmd, height);
      AddNode(leaf);
      Broadcast(Proposal(v, leaf, highQc, env.me));
      var d := At(viewData, v);
      if d.proposal.None? {
        d := d.(proposal := Some((leaf, highQc)));
      }
      SetVd(v, d.(sent := d.sent + {Prepare}));
      Kick(NodeHash(leaf));
    }

    /** The tail that the three voting rules share: sign, hand the vote to the leader, set the flag. */
    method Cast(kind: MsgType, h: Hash)
      requires ValidEnv(env)
      modifies this
      ensures Value() == CastVote(env, old(Value()), kind, h)
    {
      var v := view;
      var sig := Sig(env.me, kind, v, h);
      signed := signed + [Ballot(env.me, kind, v, h)];
      var leader := Leader(env.n, v);
      var d := At(viewData, v);
      if leader == env.me {
        d := d.(votes := AddVote(d.votes, kind, env.me, (h, sig)));
      } else {
        Send(leader, Vote(kind, v, h, env.me, sig));
      }
      SetVd(v, d.(voted := d.voted + {kind}));
    }

    /** `replica_prepare`. */
    method VotePrepare()
      requires ValidEnv(env)
      modifies this
      ensures Value() == ReplicaPrepare(env, old(Value()))
    {
      var d := At(viewData, view);
      if d.proposal.None? || Prepare in d.voted {
        return;
      }
      var (leaf, high) := d.proposal.value;
      if NodeHash(leaf) !in validation {
        return;
      }
      if !validation[NodeHash(leaf)] {
        SetVd(view, d.(voted := d.voted + {Prepare}));
        return;
      }
      var safe := CheckSafe(leaf, high, lockedQc, tree);
      if !safe {
        SetVd(view, d.(voted := d.voted + {Prepare}));
        return;
      }
      Cast(Prepare, NodeHash(leaf));
    }

    /** `leader_pre_commit`, `leader_commit` and `leader_decide`. */
    method Certify(kind: MsgType) returns (ghost formed: Option<QC>)
      requires ValidEnv(env) && VoteKind(kind)
      modifies this
      ensures RuleOk(env, old(Value()), FormRule(kind, formed))
      ensures Value() == LeaderPhase(env, old(Value()), kind, formed)
    {
      formed := None;
      var v, next := view, PhaseAfter(kind);
      var d := At(viewData, v);
      if Leader(env.n, v) != env.me || next in d.sent {
        return;
      }
      var qc := FormQc(Bucket(d.votes, kind), kind, v, Quorum(env.n));
      formed := qc;
      if qc.None? {
        return;
      }
      Broadcast(PhaseQc(next, v, qc.value, env.me));
      d := d.(sent := d.sent + {next});
      SetVd(v, d);
      if next !in d.seen {
        SetVd(v, d.(seen := d.seen + {next}));
        AddStaged(next, v, qc.value);
      }
    }

    /** `replica_pre_commit` and `replica_commit`. */
    method VotePhase(kind: MsgType)
      requires ValidEnv(env) && kind in {PreCommit, Commit}
      modifies this
      ensures Value() == ReplicaPhase(env, old(Value()), kind)
    {
      var d := At(viewData, view);
      if kind !in d.seen || kind in d.voted {
        return;
      }
      if (kind, view) !in staged {
        return;
      }
      var qc := staged[(kind, view)];
      if kind == PreCommit {
        prepareQc := Some(qc);
      } else {
        lockedQc := Some(qc);
      }
      Cast(kind, qc.node);
    }

    // ----- execution -----

    /** Swap the cached post-state into the live state. */
    method TakePostState(h: Hash)
      requires h in postState
      modifies this
      ensures Value() == old(Value()).(exec := old(Value()).exec.(live := old(postState)[h],
                                                                  postState := old(postState) - {h}))
    {
      live := postState[h];
      postState := postState - {h};
    }

    /** Make the cached post-root the chain head. */
    method TakePostRoot(h: Hash)
      requires h in postRoot
      modifies this
      ensures Value() == old(Value()).(exec := old(Value()).exec.(chained := old(postRoot)[h],
                                                                  postRoot := old(postRoot) - {h}))
    {
      chained := postRoot[h];
      postRoot := postRoot - {h};
    }

    method MarkExecuted(h: Hash, height: nat)
      modifies this
      ensures Value() == old(Value()).(exec := old(Value()).exec.(last := height, executed := old(executed) + [h]))
    {
      lastExecuted := height;
      executed := executed + [h];
    }

    /** One iteration of the execute loop of `try_execute_chain`; `go` is false where it returns. */
    method ExecuteOne(h: Hash) returns (go: bool)
      requires h in tree && !panicked
      modifies this
      ensures go <==> Ready(old(tree), old(Value()).exec, h) && !panicked
      ensures Value() == old(Value()).(exec := if Ready(old(tree), old(Value()).exec, h)
                                               then Apply(old(tree), old(Value()).exec, h)
                                               else Stall(env, old(tree), old(Value()).exec, h))
    {
      var height := tree[h].height;
      if height != lastExecuted + 1 {
        return false;
      }
      if h !in validation {
        Kick(h);
        return false;
      }
      if !validation[h] {
        return false;
      }
      if h in postState {
        TakePostState(h);
      }
      if h in preRoot {
        if height > 0 && preRoot[h] != chained {
          panicked := true;
          return false;
        }
        if h in postRoot {
          TakePostRoot(h);
        }
      }
      MarkExecuted(h, height);
      go := true;
    }

    /** `try_execute_chain`. */
    method ExecuteChain(target: Hash)
      requires !panicked
      modifies this
      ensures Value() == old(Value()).(exec := TryExecute(env, tree, old(Value()).exec, target))
    {
      var chain := BuildChain(tree, lastExecuted, target);
      for i := 0 to |chain|
        invariant !panicked && Value() == old(Value()).(exec := Value().exec)
        invariant RunChain(env, tree, Value().exec, chain[i..]) == TryExecute(env, tree, old(Value()).exec, target)
      {
        var go := ExecuteOne(chain[i]);
        assert chain[i..][1..] == chain[i + 1..];
        if !go {
          return;
        }
      }
    }

    /** `retry_pending_execute`. */
    method Backfill() returns (ghost order: seq<Hash>)
      modifies this
      ensures Enumerates(order, decided)
      ensures Value() == old(Value()).(exec := RetryPending(env, tree, old(Value()).exec, order))
    {
      var hashes := Collect(decided);
      order := hashes;
      for i := 0 to |hashes|
        invariant Value() == old(Value()).(exec := Value().exec)
        invariant RetryPending(env, tree, Value().exec, hashes[i..])
               == RetryPending(env, tree, old(Value()).exec, hashes)
      {
        if panicked {
          return;
        }
        ExecuteChain(hashes[i]);
        assert hashes[i..][1..] == hashes[i + 1..];
      }
    }

    /** `try_kick_pending_validations`. */
    method KickAll() returns (ghost order: seq<Hash>)
      modifies this
      ensures Enumerates(order, tree.Keys)
      ensures Value() == if old(panicked) then old(Value())
                         else old(Value()).(exec := KickPending(env, tree, old(Value()).exec, order))
    {
      var leaves := Collect(tree.Keys);
      order := leaves;
      if panicked {
        return;
      }
      for i := 0 to |leaves|
        invariant Value() == old(Value()).(exec := Value().exec)
        invariant KickPending(env, tree, Value().exec, leaves[i..]) == KickPending(env, tree, old(Value()).exec, leaves)
      {
        if pending.Some? || panicked {
          return;
        }
        Kick(leaves[i]);
        assert leaves[i..][1..] == leaves[i + 1..];
      }
    }

    /** `replica_decide`. */
    method DecideView()
      requires ValidEnv(env) && !panicked
      modifies this
      ensures Value() == ReplicaDecide(env, old(Value()))
    {
      var v := view;
      if Decide !in At(viewData, v).seen || (Decide, v) !in staged {
        return;
      }
      var qc := staged[(Decide, v)];
      AddDecided(qc.node);
      ExecuteChain(qc.node);
      if panicked {
        return;
      }
      SetTimeout(env.base);
      Enter(v + 1, Decision);
    }

    // ----- the event loop -----

    /** The pass begun in `start` has come this far. */
    ghost predicate Reached(start: Replica, rules: seq<Rule>)
      requires ValidEnv(env)
      reads this
    {
      RulesOk(env, start, rules) && Value() == FireAll(env, start, rules)
    }

    method RunPropose(ghost start: Replica, ghost rules: seq<Rule>) returns (ghost rule: Rule)
      requires ValidEnv(env) && !panicked && Reached(start, rules)
      modifies this
      ensures !panicked && rule.ProposeRule? && Reached(start, rules + [rule])
    {
      ghost var high := Propose();
      rule := ProposeRule(high);
      Noted(env, start, rules, rule);
    }

    method RunVotePrepare(ghost start: Replica, ghost rules: seq<Rule>)
      requires ValidEnv(env) && !panicked && Reached(start, rules)
      modifies this
      ensures !panicked && Reached(start, rules + [PrepareRule])
    {
      VotePrepare();
      Noted(env, start, rules, PrepareRule);
    }

    method RunCertify(kind: MsgType, ghost start: Replica, ghost rules: seq<Rule>) returns (ghost rule: Rule)
      requires ValidEnv(env) && VoteKind(kind) && !panicked && Reached(start, rules)
      modifies this
      ensures !panicked && rule.FormRule? && rule.kind == kind && Reached(start, rules + [rule])
    {
      ghost var formed := Certify(kind);
      rule := FormRule(kind, formed);
      Noted(env, start, rules, rule);
    }

    method RunVotePhase(kind: MsgType, ghost start: Replica, ghost rules: seq<Rule>)
      requires ValidEnv(env) && kind in {PreCommit, Commit} && !panicked && Reached(start, rules)
      modifies this
      ensures !panicked && Reached(start, rules + [PhaseRule(kind)])
    {
      VotePhase(kind);
      Noted(env, start, rules, PhaseRule(kind));
    }

    method RunDecide(ghost start: Replica, ghost rules: seq<Rule>)
      requires ValidEnv(env) && !panicked && Reached(start, rules)
      modifies this
      ensures Reached(start, rules + [DecideRule])
    {
      DecideView();
      Noted(env, start, rules, DecideRule);
    }

    method RunBackfill(ghost start: Replica, ghost rules: seq<Rule>) returns (ghost rule: Rule)
      requires ValidEnv(env) && Reached(start, rules)
      modifies this
      ensures rule.RetryRule? && Reached(start, rules + [rule])
    {
      ghost var order := Backfill();
      rule := RetryRule(order);
      Noted(env, start, rules, rule);
    }

    method RunKickAll(ghost start: Replica, ghost rules: seq<Rule>) returns (ghost rule: Rule)
      requires ValidEnv(env) && Reached(start, rules)
      modifies this
      ensures rule.KickRule? && Reached(start, rules + [rule])
    {
      ghost var order := KickAll();
      rule := KickRule(order);
      Noted(env, start, rules, rule);
    }

    /** A leader rule and the replica rule it feeds. */
    method RunPhase(kind: MsgType, ghost start: Replica, ghost rules: seq<Rule>) returns (ghost rules': seq<Rule>)
      requires ValidEnv(env) && kind in {Prepare, PreCommit} && !panicked && Reached(start, rules)
      modifies this
      ensures !panicked && Reached(start, rules') && |rules'| == |rules| + 2 && rules <= rules'
      ensures rules'[|rules|].FormRule? && rules'[|rules|].kind == kind
      ensures rules'[|rules| + 1] == PhaseRule(PhaseAfter(kind))
    {
      ghost var rule := RunCertify(kind, start, rules);
      RunVotePhase(PhaseAfter(kind), start, rules + [rule]);
      rules' := rules + [rule] + [PhaseRule(PhaseAfter(kind))];
    }

    method RunPrepare() returns (ghost rules: seq<Rule>)
      requires ValidEnv(env) && !panicked
      modifies this
      ensures !panicked && Reached(old(Value()), rules) && |rules| == 2
      ensures rules[0].ProposeRule? && rules[1] == PrepareRule
    {
      ghost var start := Value();
      ghost var rule := RunPropose(start, []);
      RunVotePrepare(start, [] + [rule]);
      rules := [] + [rule] + [PrepareRule];
    }

    method RunRest(ghost start: Replica, ghost rules: seq<Rule>) returns (ghost rules': seq<Rule>)
      requires ValidEnv(env) && Reached(start, rules)
      modifies this
      ensures Reached(start, rules') && |rules'| == |rules| + 2 && rules <= rules'
      ensures rules'[|rules|].RetryRule? && rules'[|rules| + 1].KickRule?
    {
      ghost var retry := RunBackfill(start, rules);
      ghost var kick := RunKickAll(start, rules + [retry]);
      rules' := rules + [retry] + [kick];
    }

    method RunDecided(ghost start: Replica, ghost rules: seq<Rule>) returns (ghost rules': seq<Rule>)
      requires ValidEnv(env) && !panicked && Reached(start, rules)
      modifies this
      ensures Reached(start, rules') && |rules'| == |rules| + 2 && rules <= rules'
      ensures rules'[|rules|].FormRule? && rules'[|rules|].kind == Commit && rules'[|rules| + 1] == DecideRule
    {
      ghost var rule := RunCertify(Commit, start, rules);
      RunDecide(start, rules + [rule]);
      rules' := rules + [rule] + [DecideRule];
    }

    method RunPhases() returns (ghost rules: seq<Rule>)
      requires ValidEnv(env) && !panicked
      modifies this
      ensures !panicked && Reached(old(Value()), rules) && |rules| == 6
      ensures rules[0].ProposeRule? && rules[1] == PrepareRule
      ensures rules[2].FormRule? && rules[2].kind == Prepare && rules[3] == PhaseRule(PreCommit)
      ensures rules[4].FormRule? && rules[4].kind == PreCommit && rules[5] == PhaseRule(Commit)
    {
      ghost var start := Value();
      ghost var rules2 := RunPrepare();
      ghost var rules4 := RunPhase(Prepare, start, rules2);
      rules := RunPhase(PreCommit, start, rules4);
      assert rules[..4] == rules4 && rules4[..2] == rules2;
    }

    /** `try_advance`: one pass over the rules, in their fixed order. */
    method TryAdvance() returns (ghost rules: seq<Rule>)
      requires ValidEnv(env) && !panicked
      modifies this
      ensures IsPass(rules) && RulesOk(env, old(Value()), rules)
      ensures Value() == FireAll(env, old(Value()), rules)
    {
      ghost var start := Value();
      ghost var rules6 := RunPhases();
      ghost var rules8 := RunDecided(start, rules6);
      rules := RunRest(start, rules8);
      assert rules[..8] == rules8 && rules8[..6] == rules6;
    }

    /** One turn of the main loop. */
    method Serve(ev: Event) returns (ghost rules: seq<Rule>)
      requires ValidEnv(env) && Running(env, Value()) && EventOk(Value(), ev)
      modifies this
      ensures Turn(env, old(Value()), ev, rules, Value())
    {
      match ev {
        case Startup =>
        case Deliver(msg) => Receive(msg);
        case Timer(v) => Expire(v);
        case ValidationDone(readable) => FinishValidation(readable);
      }
      if panicked {
        return [];
      }
      rules := TryAdvance();
    }
  }
}
