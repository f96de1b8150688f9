/** Where height-consistent branches come from: correct leaders build them
    (node/consensus-node/src/consensus/rules.rs:52-77), and if the proposals of faulty leaders that
    arrive do not lie about heights, every decided branch is consistent. */
module Heights {
  import opened Messages
  import opened Ancestry
  import opened Execution
  import opened Replicas
  import opened VoteLog
  import opened Systems
  import opened Safety
  import opened Proposals
  import opened Halting
  import opened Runs

  /** The height is that of the parent plus one; with `range`, it is also one of the workload. */
  predicate TrueHeight(numBlocks: nat, range: bool, n: Node) {
    HeightStep(n) && (range ==> n.height < numBlocks)
  }

  ghost predicate TreeTrue(b: nat, range: bool, tree: Tree) {
    forall h | h in tree :: TrueHeight(b, range, tree[h])
  }

  ghost predicate ViewsTrue(b: nat, range: bool, views: Views) {
    forall v: nat :: At(views, v).proposal.Some? ==> TrueHeight(b, range, At(views, v).proposal.value.0)
  }

  ghost predicate OutboxTrue(b: nat, range: bool, outbox: set<Envelope>) {
    forall e | e in outbox && e.msg.Proposal? :: TrueHeight(b, range, e.msg.node)
  }

  /** All nodes a replica knows, stores as proposal or proposed itself have true heights. */
  ghost predicate HeightsTrue(b: nat, range: bool, r: Replica) {
    TreeTrue(b, range, r.core.tree) && ViewsTrue(b, range, r.core.viewData) && OutboxTrue(b, range, r.io.outbox)
  }

  // ----- events -----

  /** Nothing about nodes and proposals changed but for messages that are no proposals. */
  ghost predicate SameNodes(r: Replica, r': Replica) {
    && r'.core.tree == r.core.tree
    && (forall v: nat :: At(r'.core.viewData, v).proposal == At(r.core.viewData, v).proposal)
    && (forall e | e in r'.io.outbox && e.msg.Proposal? :: e in r.io.outbox)
  }

  lemma SameNodesTrue(b: nat, range: bool, r: Replica, r': Replica)
    requires HeightsTrue(b, range, r) && SameNodes(r, r')
    ensures HeightsTrue(b, range, r')
  {
  }

  lemma ProposalHeights(env: Env, range: bool, r: Replica, view: nat, node: Node, j: Option<QC>, sender: nat)
    requires ValidEnv(env) && HeightsTrue(env.numBlocks, range, r) && TrueHeight(env.numBlocks, range, node)
    ensures HeightsTrue(env.numBlocks, range, HandleProposal(env, r, view, node, j, sender))
  {
  }

  lemma PhaseQcSame(env: Env, r: Replica, kind: MsgType, view: nat, cert: QC, sender: nat)
    requires ValidEnv(env)
    ensures SameNodes(r, HandlePhaseQc(env, r, kind, view, cert, sender))
  {
  }

  lemma EnterSame(env: Env, r: Replica, cause: Cause)
    requires ValidEnv(env)
    ensures SameNodes(r, EnterNewView(env, r, cause))
  {
  }

  lemma OtherEventSame(env: Env, r: Replica, ev: Event)
    requires ValidEnv(env) && EventOk(r, ev) && !(ev.Deliver? && ev.msg.Proposal?)
    ensures SameNodes(r, Handle(env, r, ev))
  {
    match ev
    case Deliver(msg) =>
      if msg.PhaseQc? { PhaseQcSame(env, r, msg.kind, msg.view, msg.cert, msg.sender); }
    case Timer(view) =>
      var r1 := r.(io := r.io.(timers := r.io.timers - {view}));
      EnterSame(env, r1.(core := r.core.(timeout := SaturatingDouble(r.core.timeout))), Timeout);
    case _ =>
  }

  lemma EventHeights(env: Env, range: bool, r: Replica, ev: Event)
    requires ValidEnv(env) && HeightsTrue(env.numBlocks, range, r) && EventOk(r, ev)
    requires ev.Deliver? && ev.msg.Proposal? ==> TrueHeight(env.numBlocks, range, ev.msg.node)
    ensures HeightsTrue(env.numBlocks, range, Handle(env, r, ev))
  {
    if ev.Deliver? && ev.msg.Proposal? {
      ProposalHeights(env, range, r, ev.msg.view, ev.msg.node, ev.msg.justify, ev.msg.sender);
    } else {
      OtherEventSame(env, r, ev);
      SameNodesTrue(env.numBlocks, range, r, Handle(env, r, ev));
    }
  }

  // ----- rules -----

  /** The leader builds its leaf one above the highQC's node, or at height 0 on genesis. */
  lemma ProposeHeights(env: Env, range: bool, r: Replica, high: Option<QC>)
    requires ValidEnv(env) && HeightsTrue(env.numBlocks, range, r)
    ensures HeightsTrue(env.numBlocks, range, LeaderPrepare(env, r, high))
  {
    if LeaderPrepare(env, r, high) != r {
      var height := NextHeight(r.core.tree, high).value;
      var leaf := Node(JustifiedNode(high), env.blocks(height).cmd, height);
      assert TrueHeight(env.numBlocks, range, leaf);
    }
  }

  lemma CastSame(env: Env, r: Replica, kind: MsgType, h: Hash)
    requires ValidEnv(env)
    ensures SameNodes(r, CastVote(env, r, kind, h))
  {
  }

  lemma FormSame(env: Env, r: Replica, kind: MsgType, formed: Option<QC>)
    requires ValidEnv(env)
    ensures SameNodes(r, LeaderPhase(env, r, kind, formed))
  {
  }

  lemma PrepareSame(env: Env, r: Replica)
    requires ValidEnv(env)
    ensures SameNodes(r, ReplicaPrepare(env, r))
  {
    var d := Vd(r.core, r.core.view);
    if d.proposal.Some? { CastSame(env, r, Prepare, NodeHash(d.proposal.value.0)); }
  }

  lemma PhaseSame(env: Env, r: Replica, kind: MsgType)
    requires ValidEnv(env)
    ensures SameNodes(r, ReplicaPhase(env, r, kind))
  {
    if ReplicaPhase(env, r, kind) != r {
      var qc := r.core.staged[(kind, r.core.view)];
      var c := if kind == PreCommit then r.core.(prepareQc := Some(qc)) else r.core.(lockedQc := Some(qc));
      CastSame(env, r.(core := c), kind, qc.node);
    }
  }

  lemma DecideSame(env: Env, r: Replica)
    requires ValidEnv(env)
    ensures SameNodes(r, ReplicaDecide(env, r))
  {
    var v := r.core.view;
    if (Decide, v) in r.core.staged {
      var h := r.core.staged[(Decide, v)].node;
      var c := r.core.(decided := r.core.decided + {h}, timeout := env.base);
      EnterSame(env, r.(core := c, exec := TryExecute(env, c.tree, r.exec, h)), Decision);
    }
  }

  lemma RuleHeights(env: Env, range: bool, r: Replica, rule: Rule)
    requires ValidEnv(env) && HeightsTrue(env.numBlocks, range, r)
    ensures HeightsTrue(env.numBlocks, range, Fire(env, r, rule))
  {
    if !r.exec.panicked {
      match rule {
        case ProposeRule(high) => ProposeHeights(env, range, r, high); return;
        case FormRule(kind, formed) => FormSame(env, r, kind, formed);
        case DecideRule => DecideSame(env, r);
        case PrepareRule => PrepareSame(env, r);
        case PhaseRule(kind) => PhaseSame(env, r, kind);
        case _ =>
      }
      SameNodesTrue(env.numBlocks, range, r, Fire(env, r, rule));
    }
  }

  lemma {:induction false} RulesHeights(env: Env, range: bool, r: Replica, rules: seq<Rule>)
    requires ValidEnv(env) && HeightsTrue(env.numBlocks, range, r)
    ensures HeightsTrue(env.numBlocks, range, FireAll(env, r, rules))
    decreases |rules|
  {
    if rules != [] {
      RulesHeights(env, range, r, rules[..|rules| - 1]);
      RuleHeights(env, range, FireAll(env, r, rules[..|rules| - 1]), rules[|rules| - 1]);
    }
  }

  // ----- runs whose faulty leaders do not lie about heights -----

  ghost predicate AllTrue(sys: Sys, range: bool, w: World) {
    forall i | i in w.reps :: HeightsTrue(sys.numBlocks, range, w.reps[i])
  }

  /** A proposal that arrives from a faulty leader has a true height. */
  predicate HonestHeight(sys: Sys, range: bool, ev: Event) {
    ev.Deliver? && ev.msg.Proposal? && ev.msg.sender in sys.cfg.faulty ==> TrueHeight(sys.numBlocks, range, ev.msg.node)
  }

  ghost predicate HonestStepAt(sys: Sys, range: bool, ws: seq<World>, k: nat)
    requires ValidSys(sys) && k + 1 < |ws|
  {
    && HasReplicas(sys, ws[k])
    && exists i, ev: Event, rules: seq<Rule>, r': Replica ::
         && i in ws[k].reps
         && (ev.Deliver? ==> Deliverable(sys, ws[k], i, ev.msg)) && HonestHeight(sys, range, ev)
         && Turn(EnvOf(sys, i), ws[k].reps[i], ev, rules, r')
         && ws[k + 1] == Publish(ws[k], i, r')
  }

  ghost predicate HonestRun(sys: Sys, range: bool, ws: seq<World>)
    requires ValidSys(sys)
  {
    && |ws| > 0 && Init(sys, ws[0])
    && forall k: nat | k + 1 < |ws| :: HonestStepAt(sys, range, ws, k)
  }

  lemma HonestIsRun(sys: Sys, range: bool, ws: seq<World>)
    requires ValidSys(sys) && HonestRun(sys, range, ws)
    ensures IsRun(sys, ws)
  {
    forall k: nat | k + 1 < |ws| ensures StepAt(sys, ws, k) {
      assert HonestStepAt(sys, range, ws, k);
    }
  }

  lemma FaultFreeStep(sys: Sys, ws: seq<World>, k: nat)
    requires ValidSys(sys) && sys.cfg.faulty == {} && k + 1 < |ws| && StepAt(sys, ws, k)
    ensures HonestStepAt(sys, true, ws, k)
  {
    var i, ev: Event, rules: seq<Rule>, r': Replica :|
      && i in ws[k].reps
      && (ev.Deliver? ==> Deliverable(sys, ws[k], i, ev.msg))
      && Turn(EnvOf(sys, i), ws[k].reps[i], ev, rules, r')
      && ws[k + 1] == Publish(ws[k], i, r');
    assert HonestHeight(sys, true, ev);
  }

  /** Without faulty replicas every run is one of these. */
  lemma FaultFreeIsHonest(sys: Sys, ws: seq<World>)
    requires ValidSys(sys) && IsRun(sys, ws) && sys.cfg.faulty == {}
    ensures HonestRun(sys, true, ws)
  {
    forall k: nat | k + 1 < |ws| ensures HonestStepAt(sys, true, ws, k) {
      assert StepAt(sys, ws, k);
      FaultFreeStep(sys, ws, k);
    }
  }

  /** What arrives has a true height: a correct leader built it, or the faulty one did not lie. */
  lemma DeliveredHeight(sys: Sys, range: bool, w: World, i: nat, ev: Event)
    requires ValidSys(sys) && HasReplicas(sys, w) && AllTrue(sys, range, w) && HonestHeight(sys, range, ev)
    requires ev.Deliver? && ev.msg.Proposal? && Deliverable(sys, w, i, ev.msg)
    ensures TrueHeight(sys.numBlocks, range, ev.msg.node)
  {
    if ev.msg.sender !in sys.cfg.faulty {
      assert HeightsTrue(sys.numBlocks, range, w.reps[ev.msg.sender]);
      assert Envelope(i, ev.msg) in w.reps[ev.msg.sender].io.outbox && Envelope(i, ev.msg).msg.Proposal?;
    }
  }

  /** The event and any number of the rules after it keep true heights. */
  lemma PartTrue(sys: Sys, range: bool, w: World, i: nat, ev: Event, rules: seq<Rule>)
    requires ValidSys(sys) && HasReplicas(sys, w) && AllTrue(sys, range, w) && i in w.reps
    requires (ev.Deliver? ==> Deliverable(sys, w, i, ev.msg)) && HonestHeight(sys, range, ev) && EventOk(w.reps[i], ev)
    ensures AllTrue(sys, range, Publish(w, i, FireAll(EnvOf(sys, i), Handle(EnvOf(sys, i), w.reps[i], ev), rules)))
  {
    var env := EnvOf(sys, i);
    if ev.Deliver? && ev.msg.Proposal? { DeliveredHeight(sys, range, w, i, ev); }
    assert HeightsTrue(env.numBlocks, range, w.reps[i]);
    EventHeights(env, range, w.reps[i], ev);
    RulesHeights(env, range, Handle(env, w.reps[i], ev), rules);
  }

  lemma StepTrue(sys: Sys, range: bool, ws: seq<World>, k: nat)
    requires ValidSys(sys) && k + 1 < |ws| && HonestStepAt(sys, range, ws, k) && AllTrue(sys, range, ws[k])
    ensures AllTrue(sys, range, ws[k + 1])
  {
    var i, ev: Event, rules: seq<Rule>, r': Replica :|
      && i in ws[k].reps
      && (ev.Deliver? ==> Deliverable(sys, ws[k], i, ev.msg)) && HonestHeight(sys, range, ev)
      && Turn(EnvOf(sys, i), ws[k].reps[i], ev, rules, r')
      && ws[k + 1] == Publish(ws[k], i, r');
    PartTrue(sys, range, ws[k], i, ev, rules);
  }

  lemma StartTrue(sys: Sys, range: bool, w: World)
    requires ValidSys(sys) && Init(sys, w)
    ensures AllTrue(sys, range, w)
  {
    forall i | i in w.reps ensures HeightsTrue(sys.numBlocks, range, w.reps[i]) {
      StartShape(EnvOf(sys, i));
    }
  }

  lemma RunTrue(sys: Sys, range: bool, ws: seq<World>, k: nat)
    requires ValidSys(sys) && HonestRun(sys, range, ws) && k < |ws|
    ensures AllTrue(sys, range, ws[k])
  {
    StartTrue(sys, range, ws[0]);
    for j := 0 to k
      invariant AllTrue(sys, range, ws[j])
    {
      assert HonestStepAt(sys, range, ws, j);
      StepTrue(sys, range, ws, j);
    }
  }

  // ----- certified branches -----

  /** The proposal behind a certificate: true height, and a parent that is genesis or certified. */
  lemma CertifiedProposal(sys: Sys, range: bool, w: World, kind: MsgType, v: nat, h: Hash) returns (j: Option<QC>)
    requires ValidSys(sys) && Inv(sys, w) && ProposalInv(sys, w) && AllTrue(sys, range, w)
    requires Certified(sys.cfg, w.log, kind, v, h)
    ensures h.NodeHash? && HeightStep(h.node) && h.node.parent == JustifiedNode(j) && GoodJustify(sys.cfg, w.log, j)
  {
    var p := CertifiedPrepare(sys.cfg, w.log, kind, v, h);
    var s := CorrectSupporter(sys.cfg, w.log[..p], Prepare, v, h);
    assert VotedProposal(w, Ballot(s, Prepare, v, h));
    var d := At(w.reps[s].core.viewData, v);
    assert HeightsTrue(sys.numBlocks, range, w.reps[s]) && ViewOk(sys.cfg, w.log, v, d);
    j := d.proposal.value.1;
  }

  lemma {:induction false} CertifiedConsistent(sys: Sys, range: bool, w: World, kind: MsgType, v: nat, h: Hash)
    requires ValidSys(sys) && Inv(sys, w) && ProposalInv(sys, w) && AllTrue(sys, range, w)
    requires Certified(sys.cfg, w.log, kind, v, h)
    ensures HeightConsistent(h)
    decreases h
  {
    var j := CertifiedProposal(sys, range, w, kind, v, h);
    if j.Some? {
      GoodQcCertified(sys.cfg, w.log, j.value);
      CertifiedConsistent(sys, range, w, j.value.kind, j.value.view, j.value.node);
    }
  }

  lemma DecidedTrue(sys: Sys, range: bool, w: World, i: nat)
    requires ValidSys(sys) && Good(sys, w) && AllTrue(sys, range, w) && i in w.reps
    ensures DecidedConsistent(w.reps[i].core.decided)
  {
    forall d | d in w.reps[i].core.decided ensures HeightConsistent(d) {
      assert HasCommit(sys.cfg, w.log, d);
      var v :| Certified(sys.cfg, w.log, Commit, v, d);
      CertifiedConsistent(sys, range, w, Commit, v, d);
    }
  }
}
