/** What each message, timer and validation outcome leaves behind, exactly, and that it stays for
    the rest of the run (node/consensus-node/src/consensus/handlers.rs). */
module Receipts {
  import opened Messages
  import opened Execution
  import opened Ledger
  import opened Replicas
  import opened Progress
  import opened Certificates

  // ----- one message -----

  /** A PHASE message carries the certificate of the phase before it. */
  predicate CarriesPhase(kind: MsgType, cert: MsgType) {
    || (kind == PreCommit && cert == Prepare)
    || (kind == Commit && cert == PreCommit)
    || (kind == Decide && cert == Commit)
  }

  /** From the leader of its view, of matching type and view, with a certificate that verifies. */
  predicate GoodPhase(env: Env, kind: MsgType, view: nat, cert: QC, sender: nat)
    requires ValidEnv(env)
  {
    sender == Leader(env.n, view) && CarriesPhase(kind, cert.kind) && cert.view == view && Accepts(env, cert)
  }

  /** A vote for a phase of a view led here, by this replica or signed by the voter named. */
  predicate GoodVote(env: Env, kind: MsgType, view: nat, hash: Hash, voter: nat, sig: Sig)
    requires ValidEnv(env)
  {
    && Leader(env.n, view) == env.me && (kind == Prepare || kind == PreCommit || kind == Commit)
    && (voter == env.me || (voter < env.n && sig == Sig(voter, kind, view, hash)))
  }

  /** A report to the leader of the next view, with a certificate that verifies or none. */
  predicate GoodReport(env: Env, view: nat, justify: Option<QC>)
    requires ValidEnv(env)
  {
    Leader(env.n, view + 1) == env.me && (justify.None? || Accepts(env, justify.value))
  }

  /** From the leader of its view, on top of a node with a verifying certificate, or of genesis. */
  predicate GoodProposal(env: Env, view: nat, node: Node, justify: Option<QC>, sender: nat)
    requires ValidEnv(env)
  {
    && sender == Leader(env.n, view)
    && if justify.None? then node.parent == Genesis
       else node.parent == justify.value.node && Accepts(env, justify.value)
  }

  /** Data of view `v` becomes `d`; that of all other views stays. */
  ghost predicate OneView(c: Core, c': Core, v: nat, d: ViewData) {
    forall u: nat :: At(c'.viewData, u) == if u == v then d else At(c.viewData, u)
  }

  /** A good PHASE message not seen before is flagged and staged, whatever the current view, and a
      DECIDE also adds its node to the decided ones. Any other changes nothing. */
  lemma PhaseLaw(env: Env, r: Replica, kind: MsgType, view: nat, cert: QC, sender: nat)
    requires ValidEnv(env)
    ensures var r' := HandleMsg(env, r, PhaseQc(kind, view, cert, sender));
            var d := At(r.core.viewData, view);
            if !GoodPhase(env, kind, view, cert, sender) || kind in d.seen then r' == r
            else
              && OneView(r.core, r'.core, view, d.(seen := d.seen + {kind}))
              && r' == r.(core := r.core.(
                   viewData := r'.core.viewData,
                   staged := r.core.staged[(kind, view) := cert],
                   decided := if kind == Decide then r.core.decided + {cert.node} else r.core.decided))
  {
  }

  /** The first good vote of a voter in a phase is counted; any other changes nothing. */
  lemma VoteLaw(env: Env, r: Replica, kind: MsgType, view: nat, hash: Hash, voter: nat, sig: Sig)
    requires ValidEnv(env)
    ensures var r' := HandleMsg(env, r, Vote(kind, view, hash, voter, sig));
            var d, d' := At(r.core.viewData, view), At(r'.core.viewData, view);
            if !GoodVote(env, kind, view, hash, voter, sig) || voter in Bucket(d.votes, kind) then r' == r
            else
              && Bucket(d'.votes, kind) == Bucket(d.votes, kind)[voter := (hash, sig)]
              && (forall k | k != kind :: Bucket(d'.votes, k) == Bucket(d.votes, k))
              && OneView(r.core, r'.core, view, d.(votes := d'.votes))
              && r' == r.(core := r.core.(viewData := r'.core.viewData))
  {
  }

  /** The first good NEW-VIEW report of a sender is collected; any other changes nothing. */
  lemma ReportLaw(env: Env, r: Replica, view: nat, justify: Option<QC>, sender: nat)
    requires ValidEnv(env)
    ensures var r' := HandleMsg(env, r, NewViewMsg(view, justify, sender));
            var d := At(r.core.viewData, view);
            if !GoodReport(env, view, justify) || sender in d.newViews then r' == r
            else
              && OneView(r.core, r'.core, view, d.(newViews := d.newViews[sender := justify]))
              && r' == r.(core := r.core.(viewData := r'.core.viewData))
  {
  }

  /** The node of a good proposal joins the tree, the first of its view is the one to vote on, and
      its validation is asked for if it can start. Any other changes nothing. */
  lemma ProposalLaw(env: Env, r: Replica, view: nat, node: Node, justify: Option<QC>, sender: nat)
    requires ValidEnv(env) && r.exec.last >= -1
    ensures var r' := HandleMsg(env, r, Proposal(view, node, justify, sender));
            var d, h := At(r.core.viewData, view), NodeHash(node);
            if !GoodProposal(env, view, node, justify, sender) then r' == r
            else
              && OneView(r.core, r'.core, view, if d.proposal.None? then d.(proposal := Some((node, justify))) else d)
              && r'.core == r.core.(viewData := r'.core.viewData, tree := r.core.tree[h := node]) && r'.io == r.io
              && (Startable(env, r'.core.tree, r.exec, h) ==> r'.exec.pending == Some(h))
              && (r'.exec.panicked ==> r.exec.panicked || node.height >= env.numBlocks)
  {
    KickLaw(env, r.core.tree[NodeHash(node) := node], r.exec, NodeHash(node));
  }

  // ----- timers and outcomes -----

  /** Entering a view: one up, its timer armed, and the latest prepareQC reported to its leader. */
  lemma EnterLaw(env: Env, r: Replica, cause: Cause)
    requires ValidEnv(env)
    ensures var r' := EnterNewView(env, r, cause);
            var v, me := r.core.view, env.me;
            var leads := Leader(env.n, v + 1) == me;
            var report := Envelope(Leader(env.n, v + 1), NewViewMsg(v, r.core.prepareQc, me));
            var d := At(r.core.viewData, v);
            && OneView(r.core, r'.core, v, if leads then d.(newViews := d.newViews[me := r.core.prepareQc]) else d)
            && r'.core == r.core.(view := v + 1, viewData := r'.core.viewData)
            && r'.exec == r.exec
            && r'.io == r.io.(outbox := if leads then r.io.outbox else r.io.outbox + {report},
                              timers := r.io.timers + {v + 1},
                              entered := r.io.entered + [cause])
  {
  }

  /** A timer ends the view it was armed for and doubles the timeout, up to the largest u64. One that
      is late, or comes after the DECIDE, is only used up. */
  lemma TimerLaw(env: Env, r: Replica, view: nat)
    requires ValidEnv(env) && view in r.io.timers
    ensures var r' := Handle(env, r, Timer(view));
            if view < r.core.view || view > r.core.view || Decide in At(r.core.viewData, view).seen then
              r' == r.(io := r.io.(timers := r.io.timers - {view}))
            else
              && r'.core.view == view + 1
              && r'.core.timeout == (if r.core.timeout < 0x8000_0000_0000_0000 then 2 * r.core.timeout
                                     else 0xFFFF_FFFF_FFFF_FFFF)
              && r'.io.timers == r.io.timers - {view} + {view + 1}
              && r'.io.entered == r.io.entered + [Timeout]
              && r'.core.lockedQc == r.core.lockedQc && r'.core.prepareQc == r.core.prepareQc
              && r'.core.tree == r.core.tree && r'.core.decided == r.core.decided && r'.core.staged == r.core.staged
              && r'.io.signed == r.io.signed && r'.exec == r.exec
  {
  }

  /** A finished validation: what the result is, what is cached for the node, and whose turn ends. */
  lemma OutcomeLaw(env: Env, r: Replica, readable: bool)
    requires ValidEnv(env) && r.exec.requests != []
    ensures var r' := Handle(env, r, ValidationDone(readable));
            var ex, ex', q := r.exec, r'.exec, r.exec.requests[0];
            var block := env.blocks(q.height);
            var valid := readable && (env.mode == Verify ==> block.proof.Some?);
            && r' == r.(exec := ex')
            && ex'.requests == ex.requests[1..] && ex'.validation == ex.validation[q.hash := valid]
            && ex'.pending == (if ex.pending == Some(q.hash) then None else ex.pending)
            && ex'.postState == (if valid && env.mode == Reexecute
                                 then ex.postState[q.hash := ApplyBlock(q.input, block.txs)] else ex.postState)
            && ex'.postRoot == (if valid && env.mode == Verify
                                then ex.postRoot[q.hash := block.proof.value.post] else ex.postRoot)
            && ex'.preRoot == (if valid && env.mode == Verify
                               then ex.preRoot[q.hash := block.proof.value.pre] else ex.preRoot)
            && ex'.last == ex.last && ex'.live == ex.live && ex'.chained == ex.chained
            && ex'.executed == ex.executed && ex'.panicked == ex.panicked
  {
  }

  // ----- what stays -----

  /** Flags, the proposal and everybody else's messages of a view are never lost or replaced. */
  ghost predicate Kept(me: nat, d: ViewData, d': ViewData) {
    && (d.proposal.Some? ==> d'.proposal == d.proposal)
    && d.voted <= d'.voted && d.seen <= d'.seen && d.sent <= d'.sent
    && (forall s | s in d.newViews :: s in d'.newViews && (s != me ==> d'.newViews[s] == d.newViews[s]))
    && (forall k :: VotesKept(me, Bucket(d.votes, k), Bucket(d'.votes, k)))
  }

  ghost predicate VotesKept(me: nat, votes: Votes, votes': Votes) {
    forall s | s in votes :: s in votes' && (s != me ==> votes'[s] == votes[s])
  }

  ghost predicate StagedKept(c: Core, c': Core, k: MsgType, v: nat) {
    k in At(c.viewData, v).seen && (k, v) in c.staged ==>
      (k, v) in c'.staged && c'.staged[(k, v)] == c.staged[(k, v)]
  }

  /** Nothing learned is forgotten. */
  ghost predicate CoreStays(me: nat, c: Core, c': Core) {
    && c.view <= c'.view && c.decided <= c'.decided && c.tree.Keys <= c'.tree.Keys
    && (forall v: nat :: Kept(me, At(c.viewData, v), At(c'.viewData, v)))
    && (forall k, v: nat :: StagedKept(c, c', k, v))
  }

  ghost predicate Stays(me: nat, r: Replica, r': Replica) {
    && CoreStays(me, r.core, r'.core)
    && r.io.signed <= r'.io.signed && r.io.outbox <= r'.io.outbox && r.io.entered <= r'.io.entered
    && r.exec.validation.Keys <= r'.exec.validation.Keys
  }

  lemma KeptTransitive(me: nat, a: ViewData, b: ViewData, c: ViewData)
    requires Kept(me, a, b) && Kept(me, b, c)
    ensures Kept(me, a, c)
  {
    forall k ensures VotesKept(me, Bucket(a.votes, k), Bucket(c.votes, k)) {
      assert VotesKept(me, Bucket(a.votes, k), Bucket(b.votes, k));
      assert VotesKept(me, Bucket(b.votes, k), Bucket(c.votes, k));
    }
  }

  lemma CoreStaysTransitive(me: nat, a: Core, b: Core, c: Core)
    requires CoreStays(me, a, b) && CoreStays(me, b, c)
    ensures CoreStays(me, a, c)
  {
    forall v: nat ensures Kept(me, At(a.viewData, v), At(c.viewData, v)) {
      KeptTransitive(me, At(a.viewData, v), At(b.viewData, v), At(c.viewData, v));
    }
    forall k, v: nat ensures StagedKept(a, c, k, v) {
      assert StagedKept(a, b, k, v) && StagedKept(b, c, k, v) && Kept(me, At(a.viewData, v), At(b.viewData, v));
    }
  }

  lemma StaysTransitive(me: nat, a: Replica, b: Replica, c: Replica)
    requires Stays(me, a, b) && Stays(me, b, c)
    ensures Stays(me, a, c)
  {
    CoreStaysTransitive(me, a.core, b.core, c.core);
  }

  /** The data of one view grew; so may have the tree and the decided nodes. */
  lemma ViewStays(me: nat, c: Core, c': Core, v: nat)
    requires c'.view >= c.view && c.decided <= c'.decided && c.tree.Keys <= c'.tree.Keys && c'.staged == c.staged
    requires OneView(c, c', v, At(c'.viewData, v)) && Kept(me, At(c.viewData, v), At(c'.viewData, v))
    ensures CoreStays(me, c, c')
  {
    forall u: nat ensures Kept(me, At(c.viewData, u), At(c'.viewData, u)) {
      assert At(c'.viewData, u) == At(c.viewData, u) || u == v;
    }
  }

  lemma SameStays(me: nat, c: Core)
    ensures CoreStays(me, c, c)
  {
    ViewStays(me, c, c, 0);
  }

  lemma StageStays(me: nat, c: Core, kind: MsgType, view: nat, cert: QC)
    ensures CoreStays(me, c, Stage(c, kind, view, cert))
  {
    var c' := Stage(c, kind, view, cert);
    forall k, v: nat ensures StagedKept(c, c', k, v) {
      assert (k, v) == (kind, view) && c' != c ==> kind !in At(c.viewData, view).seen;
    }
  }

  lemma EnterStays(env: Env, r: Replica, cause: Cause)
    requires ValidEnv(env)
    ensures Stays(env.me, r, EnterNewView(env, r, cause))
  {
    ViewStays(env.me, r.core, EnterNewView(env, r, cause).core, r.core.view);
  }

  lemma MessageStays(env: Env, r: Replica, msg: Wire)
    requires ValidEnv(env)
    ensures Stays(env.me, r, HandleMsg(env, r, msg))
  {
    var r' := HandleMsg(env, r, msg);
    SameStays(env.me, r.core);
    match msg
    case Hello(_) =>
    case Proposal(view, node, j, _) =>
      if r' != r { ViewStays(env.me, r.core, r'.core, view); }
      ProposalStays(env, r, node);
    case PhaseQc(kind, view, cert, _) =>
      var c := r.core.(decided := r.core.decided + {cert.node});
      ViewStays(env.me, r.core, c, view);
      StageStays(env.me, c, kind, view, cert);
      StageStays(env.me, r.core, kind, view, cert);
      CoreStaysTransitive(env.me, r.core, c, Stage(c, kind, view, cert));
    case Vote(_, view, _, _, _) => if r' != r { ViewStays(env.me, r.core, r'.core, view); }
    case NewViewMsg(view, _, _) => if r' != r { ViewStays(env.me, r.core, r'.core, view); }
  }

  lemma ProposalStays(env: Env, r: Replica, node: Node)
    ensures MaybeKick(env, r.core.tree[NodeHash(node) := node], r.exec, NodeHash(node)).validation == r.exec.validation
  {
    KickAsks(env, r.core.tree[NodeHash(node) := node], r.exec, NodeHash(node));
  }

  lemma HandleStays(env: Env, r: Replica, ev: Event)
    requires ValidEnv(env) && EventOk(r, ev)
    ensures Stays(env.me, r, Handle(env, r, ev))
  {
    SameStays(env.me, r.core);
    match ev
    case Deliver(msg) => MessageStays(env, r, msg);
    case Timer(view) =>
      var r1 := r.(io := r.io.(timers := r.io.timers - {view}),
                   core := r.core.(timeout := SaturatingDouble(r.core.timeout)));
      ViewStays(env.me, r.core, r1.core, 0);
      EnterStays(env, r1, Timeout);
      StaysTransitive(env.me, r, r1, EnterNewView(env, r1, Timeout));
    case _ =>
  }

  // ----- rules -----

  lemma CastStays(env: Env, r: Replica, kind: MsgType, h: Hash)
    requires ValidEnv(env)
    ensures Stays(env.me, r, CastVote(env, r, kind, h))
  {
    ViewStays(env.me, r.core, CastVote(env, r, kind, h).core, r.core.view);
  }

  lemma ProposeStays(env: Env, r: Replica, high: Option<QC>)
    requires ValidEnv(env)
    ensures Stays(env.me, r, LeaderPrepare(env, r, high))
  {
    var r' := LeaderPrepare(env, r, high);
    if r' == r { SameStays(env.me, r.core); } else { ViewStays(env.me, r.core, r'.core, r.core.view); }
    FireAsks(env, r, ProposeRule(high));
  }

  lemma PrepareStays(env: Env, r: Replica)
    requires ValidEnv(env)
    ensures Stays(env.me, r, ReplicaPrepare(env, r))
  {
    var r' := ReplicaPrepare(env, r);
    var d := Vd(r.core, r.core.view);
    if r'.io.signed == r.io.signed {
      ViewStays(env.me, r.core, r'.core, r.core.view);
    } else {
      CastStays(env, r, Prepare, NodeHash(d.proposal.value.0));
    }
  }

  lemma FormStays(env: Env, r: Replica, kind: MsgType, formed: Option<QC>)
    requires ValidEnv(env)
    ensures Stays(env.me, r, LeaderPhase(env, r, kind, formed))
  {
    SameStays(env.me, r.core);
    if CanForm(env, r, kind) && formed.Some? {
      var v, d := r.core.view, Vd(r.core, r.core.view);
      var c := PutVd(r.core, v, d.(sent := d.sent + {PhaseAfter(kind)}));
      ViewStays(env.me, r.core, c, v);
      StageStays(env.me, c, PhaseAfter(kind), v, formed.value);
      CoreStaysTransitive(env.me, r.core, c, Stage(c, PhaseAfter(kind), v, formed.value));
    }
  }

  lemma PhaseStays(env: Env, r: Replica, kind: MsgType)
    requires ValidEnv(env)
    ensures Stays(env.me, r, ReplicaPhase(env, r, kind))
  {
    SameStays(env.me, r.core);
    if ReplicaPhase(env, r, kind) != r {
      var qc := r.core.staged[(kind, r.core.view)];
      var r1 := r.(core := if kind == PreCommit then r.core.(prepareQc := Some(qc)) else r.core.(lockedQc := Some(qc)));
      ViewStays(env.me, r.core, r1.core, 0);
      CastStays(env, r1, kind, qc.node);
      StaysTransitive(env.me, r, r1, CastVote(env, r1, kind, qc.node));
    }
  }

  lemma DecideStays(env: Env, r: Replica)
    requires ValidEnv(env)
    ensures Stays(env.me, r, ReplicaDecide(env, r))
  {
    SameStays(env.me, r.core);
    if ReplicaDecide(env, r) != r {
      var h := r.core.staged[(Decide, r.core.view)].node;
      var ex := TryExecute(env, r.core.tree, r.exec, h);
      RunChainAsks(env, r.core.tree, r.exec, Chain(r.core.tree, r.exec.last, h));
      var c := r.core.(decided := r.core.decided + {h});
      ViewStays(env.me, r.core, c, 0);
      var r1 := r.(core := c.(timeout := env.base), exec := ex);
      ViewStays(env.me, r.core, r1.core, 0);
      EnterStays(env, r1, Decision);
      StaysTransitive(env.me, r, r1, EnterNewView(env, r1, Decision));
    }
  }

  lemma FireStays(env: Env, r: Replica, rule: Rule)
    requires ValidEnv(env)
    ensures Stays(env.me, r, Fire(env, r, rule))
  {
    SameStays(env.me, r.core);
    if !r.exec.panicked {
      match rule
      case ProposeRule(high) => ProposeStays(env, r, high);
      case PrepareRule => PrepareStays(env, r);
      case FormRule(kind, formed) => FormStays(env, r, kind, formed);
      case PhaseRule(kind) => PhaseStays(env, r, kind);
      case DecideRule => DecideStays(env, r);
      case RetryRule(order) => RetryAsks(env, r.core.tree, r.exec, order);
      case KickRule(order) => KickPendingAsks(env, r.core.tree, r.exec, order);
    }
  }

  lemma {:induction false} FireAllStays(env: Env, r: Replica, rules: seq<Rule>)
    requires ValidEnv(env)
    ensures Stays(env.me, r, FireAll(env, r, rules))
    decreases |rules|
  {
    if rules == [] {
      SameStays(env.me, r.core);
    } else {
      var mid := FireAll(env, r, rules[..|rules| - 1]);
      FireAllStays(env, r, rules[..|rules| - 1]);
      FireStays(env, mid, rules[|rules| - 1]);
      StaysTransitive(env.me, r, mid, FireAll(env, r, rules));
    }
  }

  /** What is known after the first k rules is known after all. */
  lemma {:induction false} PrefixStays(env: Env, r: Replica, rules: seq<Rule>, k: nat)
    requires ValidEnv(env) && k <= |rules|
    ensures Stays(env.me, FireAll(env, r, rules[..k]), FireAll(env, r, rules))
    decreases |rules|
  {
    if k == |rules| {
      assert rules[..k] == rules;
      SameStays(env.me, FireAll(env, r, rules).core);
    } else {
      var front := rules[..|rules| - 1];
      assert front[..k] == rules[..k];
      PrefixStays(env, r, front, k);
      FireStays(env, FireAll(env, r, front), rules[|rules| - 1]);
      StaysTransitive(env.me, FireAll(env, r, rules[..k]), FireAll(env, r, front), FireAll(env, r, rules));
    }
  }
}
