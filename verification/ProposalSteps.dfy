/** Each handler and rule keeps the NEW-VIEW and proposal invariants; no lock stays hidden. */
module ProposalSteps {
  import opened Messages
  import opened Quorums
  import opened Certificates
  import opened Ancestry
  import opened Execution
  import opened Replicas
  import opened VoteLog
  import opened Systems
  import opened Safety
  import opened SafetySteps
  import opened Proposals

  // ----- moves that touch neither NEW-VIEW messages nor proposals -----

  ghost predicate SameReports(d: ViewData, d': ViewData) {
    && d'.newViews == d.newViews && d'.proposal == d.proposal
    && d.sent <= d'.sent && (Prepare in d'.sent <==> Prepare in d.sent)
  }

  ghost predicate Plain(i: nat, r: Replica, r': Replica) {
    && r'.core.view == r.core.view
    && (forall v: nat :: SameReports(At(r.core.viewData, v), At(r'.core.viewData, v)))
    && r.io.outbox <= r'.io.outbox
    && (forall e | e in r'.io.outbox && e !in r.io.outbox :: e.msg.PhaseQc? || e.msg.Vote?)
    && (|| r'.io.signed == r.io.signed
        || exists b :: r'.io.signed == r.io.signed + [b] && b.voter == i && b.view == r.core.view)
  }

  lemma PlainAdvances(i: nat, r: Replica, r': Replica)
    requires Plain(i, r, r')
    ensures Advances(i, r, r')
  {
    forall v: nat ensures Kept(At(r.core.viewData, v), At(r'.core.viewData, v)) {
      assert SameReports(At(r.core.viewData, v), At(r'.core.viewData, v));
    }
  }

  lemma PlainKeepsOwn(sys: Sys, w: World, i: nat, r: Replica, r': Replica)
    requires ValidSys(sys) && Plain(i, r, r')
    requires CollectedOk(w, r.core.viewData) && OwnProposalsOk(sys, w, i, r.core.viewData)
    requires SharedProposalsOk(sys, w, r.core.viewData)
    ensures CollectedOk(w, r'.core.viewData) && OwnProposalsOk(sys, w, i, r'.core.viewData)
    ensures SharedProposalsOk(sys, w, r'.core.viewData)
  {
    assert forall v: nat :: SameReports(At(r.core.viewData, v), At(r'.core.viewData, v));
  }

  lemma PlainKeepsSent(sys: Sys, w: World, i: nat, r: Replica, r': Replica)
    requires ValidSys(sys) && Plain(i, r, r')
    requires SentNewViewsOk(w, i, r.io.outbox) && SentProposalsOk(sys, i, r.core.viewData, r.io.outbox)
    ensures SentNewViewsOk(w, i, r'.io.outbox) && SentProposalsOk(sys, i, r'.core.viewData, r'.io.outbox)
  {
    forall e | e in r'.io.outbox && e.msg.Proposal?
      ensures At(r'.core.viewData, e.msg.view).proposal == Some((e.msg.node, e.msg.justify))
    {
      assert SameReports(At(r.core.viewData, e.msg.view), At(r'.core.viewData, e.msg.view));
    }
  }

  lemma PlainStep(sys: Sys, w: World, i: nat, r': Replica)
    requires ValidSys(sys) && ProposalInv(sys, w) && i in w.reps && Plain(i, w.reps[i], r')
    requires forall b | b in Publish(w, i, r').log && b !in w.log :: VotedProposal(Publish(w, i, r'), b)
    ensures ProposalInv(sys, Publish(w, i, r'))
  {
    var r, w' := w.reps[i], Publish(w, i, r');
    PlainAdvances(i, r, r');
    ReplicaStable(sys, w, i, r', i, r);
    PlainKeepsOwn(sys, w', i, r, r');
    PlainKeepsSent(sys, w', i, r, r');
    AdoptProposals(sys, w, i, r');
  }

  lemma QuietLog(w: World, i: nat, r': Replica)
    requires i in w.reps && r'.io.signed == w.reps[i].io.signed
    ensures Publish(w, i, r').log == w.log
  {
  }

  lemma CastPlain(env: Env, r: Replica, kind: MsgType, h: Hash)
    requires ValidEnv(env)
    ensures Plain(env.me, r, CastVote(env, r, kind, h))
  {
    var b := Ballot(env.me, kind, r.core.view, h);
    assert CastVote(env, r, kind, h).io.signed == r.io.signed + [b];
  }

  lemma StageReports(c: Core, kind: MsgType, view: nat, cert: QC, v: nat)
    ensures var d, d' := At(c.viewData, v), At(Stage(c, kind, view, cert).viewData, v);
            d'.newViews == d.newViews && d'.proposal == d.proposal && d'.sent == d.sent
  {
  }

  lemma FormReports(env: Env, r: Replica, kind: MsgType, formed: Option<QC>, v: nat)
    requires ValidEnv(env)
    ensures SameReports(At(r.core.viewData, v), At(LeaderPhase(env, r, kind, formed).core.viewData, v))
  {
    if CanForm(env, r, kind) && formed.Some? {
      var d, next := Vd(r.core, r.core.view), PhaseAfter(kind);
      StageReports(PutVd(r.core, r.core.view, d.(sent := d.sent + {next})), next, r.core.view, formed.value, v);
    }
  }

  lemma FormPlain(env: Env, r: Replica, kind: MsgType, formed: Option<QC>)
    requires ValidEnv(env)
    ensures Plain(env.me, r, LeaderPhase(env, r, kind, formed))
  {
    var r' := LeaderPhase(env, r, kind, formed);
    forall v: nat ensures SameReports(At(r.core.viewData, v), At(r'.core.viewData, v)) {
      FormReports(env, r, kind, formed, v);
    }
  }

  lemma CastLog(w: World, env: Env, i: nat, r: Replica, kind: MsgType, h: Hash)
    requires ValidEnv(env) && i == env.me && i in w.reps && r.io.signed == w.reps[i].io.signed
    ensures Publish(w, i, CastVote(env, r, kind, h)).log == w.log + [Ballot(i, kind, r.core.view, h)]
  {
    var r' := CastVote(env, r, kind, h);
    assert r'.io.signed[|r.io.signed|..] == [Ballot(i, kind, r.core.view, h)];
  }

  lemma PreparePlain(env: Env, r: Replica)
    requires ValidEnv(env)
    ensures Plain(env.me, r, ReplicaPrepare(env, r))
  {
    var r' := ReplicaPrepare(env, r);
    if r'.io.signed != r.io.signed {
      CastPlain(env, r, Prepare, NodeHash(Vd(r.core, r.core.view).proposal.value.0));
    }
  }

  /** A PREPARE ballot is for the stored proposal, which casting it leaves in place. */
  lemma PrepareBallot(w: World, env: Env, i: nat)
    requires ValidEnv(env) && i == env.me && i in w.reps
    ensures var w' := Publish(w, i, ReplicaPrepare(env, w.reps[i]));
            forall b | b in w'.log && b !in w.log :: VotedProposal(w', b)
  {
    var r := w.reps[i];
    var r' := ReplicaPrepare(env, r);
    if r'.io.signed == r.io.signed {
      QuietLog(w, i, r');
    } else {
      CastLog(w, env, i, r, Prepare, NodeHash(Vd(r.core, r.core.view).proposal.value.0));
    }
  }

  lemma PrepareKeepsProposals(sys: Sys, w: World, i: nat)
    requires ValidSys(sys) && ProposalInv(sys, w) && i in w.reps && i < sys.cfg.n
    ensures ProposalInv(sys, Publish(w, i, ReplicaPrepare(EnvOf(sys, i), w.reps[i])))
  {
    PreparePlain(EnvOf(sys, i), w.reps[i]);
    PrepareBallot(w, EnvOf(sys, i), i);
    PlainStep(sys, w, i, ReplicaPrepare(EnvOf(sys, i), w.reps[i]));
  }

  lemma PhaseKeepsProposals(sys: Sys, w: World, i: nat, kind: MsgType)
    requires ValidSys(sys) && ProposalInv(sys, w) && i in w.reps && i < sys.cfg.n && kind in {PreCommit, Commit}
    ensures ProposalInv(sys, Publish(w, i, ReplicaPhase(EnvOf(sys, i), w.reps[i], kind)))
  {
    var env, r := EnvOf(sys, i), w.reps[i];
    var r' := ReplicaPhase(env, r, kind);
    if r' == r {
      QuietLog(w, i, r');
    } else {
      var qc := r.core.staged[(kind, r.core.view)];
      var c := if kind == PreCommit then r.core.(prepareQc := Some(qc)) else r.core.(lockedQc := Some(qc));
      CastPlain(env, r.(core := c), kind, qc.node);
      CastLog(w, env, i, r.(core := c), kind, qc.node);
    }
    PlainStep(sys, w, i, r');
  }

  // ----- NEW-VIEW messages -----

  ghost predicate SameProposals(m: Views, m': Views) {
    forall v: nat :: At(m', v).proposal == At(m, v).proposal && At(m', v).sent == At(m, v).sent
  }

  lemma SameProposalsKeep(sys: Sys, w: World, i: nat, m: Views, m': Views)
    requires ValidSys(sys) && SameProposals(m, m')
    requires OwnProposalsOk(sys, w, i, m) && SharedProposalsOk(sys, w, m)
    ensures OwnProposalsOk(sys, w, i, m') && SharedProposalsOk(sys, w, m')
  {
  }

  lemma SameProposalsSent(sys: Sys, i: nat, m: Views, m': Views, outbox: set<Envelope>, outbox': set<Envelope>)
    requires ValidSys(sys) && SameProposals(m, m') && SentProposalsOk(sys, i, m, outbox)
    requires forall e | e in outbox' :: e in outbox || !e.msg.Proposal?
    ensures SentProposalsOk(sys, i, m', outbox')
  {
  }

  lemma NewViewOwn(sys: Sys, w: World, i: nat, r: Replica, view: nat, j: Option<QC>, sender: nat)
    requires ValidSys(sys) && i < sys.cfg.n && ReplicaOk(sys, w, i, r)
    requires sender in w.reps ==> Reported(w, sender, view, j)
    ensures ReplicaOk(sys, w, i, HandleNewView(EnvOf(sys, i), r, view, j, sender))
  {
    var r' := HandleNewView(EnvOf(sys, i), r, view, j, sender);
    var m, m' := r.core.viewData, r'.core.viewData;
    SameProposalsKeep(sys, w, i, m, m');
    SameProposalsSent(sys, i, m, m', r.io.outbox, r'.io.outbox);
    forall u: nat, s | s in At(m', u).newViews && s in w.reps ensures Reported(w, s, u, At(m', u).newViews[s]) {
      assert s in At(m, u).newViews ==> Reported(w, s, u, At(m, u).newViews[s]);
    }
  }

  lemma NewViewAdvances(env: Env, r: Replica, view: nat, j: Option<QC>, sender: nat)
    requires ValidEnv(env)
    ensures Advances(env.me, r, HandleNewView(env, r, view, j, sender))
  {
  }

  lemma NewViewKeepsProposals(sys: Sys, w: World, i: nat, view: nat, j: Option<QC>, sender: nat)
    requires ValidSys(sys) && ProposalInv(sys, w) && i in w.reps && i < sys.cfg.n
    requires sender in w.reps ==> Reported(w, sender, view, j)
    ensures ProposalInv(sys, Publish(w, i, HandleNewView(EnvOf(sys, i), w.reps[i], view, j, sender)))
  {
    var r := w.reps[i];
    var r' := HandleNewView(EnvOf(sys, i), r, view, j, sender);
    QuietLog(w, i, r');
    NewViewAdvances(EnvOf(sys, i), r, view, j, sender);
    ReplicaStable(sys, w, i, r', i, r);
    if sender in w.reps { ReportedStable(w, i, r', sender, view, j); }
    NewViewOwn(sys, Publish(w, i, r'), i, r, view, j, sender);
    AdoptProposals(sys, w, i, r');
  }

  /** Leaving a view reports a prepareQC no older than any PRE-COMMIT ballot cast so far. */
  lemma EnterReports(sys: Sys, w: World, i: nat, r: Replica, cause: Cause, r': Replica)
    requires ValidSys(sys) && i in w.reps && i < sys.cfg.n
    requires PrepareOk(sys.cfg, w.log, i, r.core.prepareQc)
    requires r' == EnterNewView(EnvOf(sys, i), r, cause) && r.io.signed == w.reps[i].io.signed
    ensures Reported(Publish(w, i, r'), i, r.core.view, r.core.prepareQc)
  {
    QuietLog(w, i, r');
  }

  lemma EnterAdvances(env: Env, r: Replica, cause: Cause)
    requires ValidEnv(env)
    ensures Advances(env.me, r, EnterNewView(env, r, cause))
  {
  }

  /** Entering a view from a state that differs from the stored one only in plain ways. */
  lemma EnterKeepsProposals(sys: Sys, w: World, i: nat, r: Replica, cause: Cause)
    requires ValidSys(sys) && ProposalInv(sys, w) && i in w.reps && i < sys.cfg.n
    requires PrepareOk(sys.cfg, w.log, i, r.core.prepareQc)
    requires r.core.view == w.reps[i].core.view && r.core.viewData == w.reps[i].core.viewData
    requires r.io.outbox == w.reps[i].io.outbox && r.io.signed == w.reps[i].io.signed
    ensures ProposalInv(sys, Publish(w, i, EnterNewView(EnvOf(sys, i), r, cause)))
  {
    var env := EnvOf(sys, i);
    var r' := EnterNewView(env, r, cause);
    var w' := Publish(w, i, r');
    QuietLog(w, i, r');
    EnterAdvances(env, r, cause);
    assert Advances(i, w.reps[i], r');
    ReplicaStable(sys, w, i, r', i, w.reps[i]);
    EnterReports(sys, w, i, r, cause, r');
    EnterOwn(sys, w', i, r, cause);
    AdoptProposals(sys, w, i, r');
  }

  /** Entering a view adds one report, of the current prepareQC, to a collection or the outbox. */
  lemma EnterShape(env: Env, r: Replica, cause: Cause)
    requires ValidEnv(env)
    ensures var r' := EnterNewView(env, r, cause);
            && SameProposals(r.core.viewData, r'.core.viewData)
            && (forall u: nat, s | s in At(r'.core.viewData, u).newViews ::
                  AddedReport(env, r, u, s, At(r'.core.viewData, u).newViews[s]))
            && (forall e | e in r'.io.outbox ::
                  e in r.io.outbox || e.msg == NewViewMsg(r.core.view, r.core.prepareQc, env.me))
  {
  }

  ghost predicate AddedReport(env: Env, r: Replica, u: nat, s: nat, j: Option<QC>) {
    || (s in At(r.core.viewData, u).newViews && At(r.core.viewData, u).newViews[s] == j)
    || (s == env.me && u == r.core.view && j == r.core.prepareQc)
  }

  lemma EnterOwn(sys: Sys, w: World, i: nat, r: Replica, cause: Cause)
    requires ValidSys(sys) && i < sys.cfg.n && ReplicaOk(sys, w, i, r)
    requires Reported(w, i, r.core.view, r.core.prepareQc)
    ensures ReplicaOk(sys, w, i, EnterNewView(EnvOf(sys, i), r, cause))
  {
    var r' := EnterNewView(EnvOf(sys, i), r, cause);
    var m, m' := r.core.viewData, r'.core.viewData;
    EnterShape(EnvOf(sys, i), r, cause);
    SameProposalsKeep(sys, w, i, m, m');
    SameProposalsSent(sys, i, m, m', r.io.outbox, r'.io.outbox);
    forall u: nat, s | s in At(m', u).newViews && s in w.reps ensures Reported(w, s, u, At(m', u).newViews[s]) {
      assert AddedReport(EnvOf(sys, i), r, u, s, At(m', u).newViews[s]);
    }
  }

  // ----- proposals -----

  lemma ProposalOwn(sys: Sys, w: World, i: nat, r: Replica, view: nat, node: Node, j: Option<QC>, sender: nat)
    requires ValidSys(sys) && i < sys.cfg.n && sender != i && ReplicaOk(sys, w, i, r)
    requires sender in w.reps ==> At(w.reps[sender].core.viewData, view).proposal == Some((node, j))
    ensures ReplicaOk(sys, w, i, HandleProposal(EnvOf(sys, i), r, view, node, j, sender))
  {
    var r' := HandleProposal(EnvOf(sys, i), r, view, node, j, sender);
    var m, m' := r.core.viewData, r'.core.viewData;
    ProposalShape(EnvOf(sys, i), r, view, node, j, sender);
    ProposalKeepsOwn(sys, w, i, m, m', view, node, j, sender);
    ProposalKeepsShared(sys, w, m, m', view, node, j, sender);
    forall e | e in r.io.outbox && e.msg.Proposal?
      ensures At(m', e.msg.view).proposal == Some((e.msg.node, e.msg.justify))
    {
      assert ProposalAdded(sys.cfg.n, At(m, e.msg.view), At(m', e.msg.view), e.msg.view, view, node, j, sender);
    }
  }

  /** The stored proposal of view v is as before, or was empty and is now the received one. */
  ghost predicate ProposalAdded(n: nat, d: ViewData, d': ViewData, v: nat,
                                view: nat, node: Node, j: Option<QC>, sender: nat)
    requires n >= 1
  {
    && d'.newViews == d.newViews && d'.sent == d.sent
    && (|| d'.proposal == d.proposal
        || (d.proposal.None? && v == view && sender == Leader(n, view) && d'.proposal == Some((node, j))))
  }

  lemma ProposalShape(env: Env, r: Replica, view: nat, node: Node, j: Option<QC>, sender: nat)
    requires ValidEnv(env)
    ensures var r' := HandleProposal(env, r, view, node, j, sender);
            && r'.core.view == r.core.view && r'.io == r.io
            && forall v: nat ::
                 ProposalAdded(env.n, At(r.core.viewData, v), At(r'.core.viewData, v), v, view, node, j, sender)
  {
  }

  lemma ProposalKeepsOwn(sys: Sys, w: World, i: nat, m: Views, m': Views,
                         view: nat, node: Node, j: Option<QC>, sender: nat)
    requires ValidSys(sys) && sender != i
    requires forall v: nat :: ProposalAdded(sys.cfg.n, At(m, v), At(m', v), v, view, node, j, sender)
    requires CollectedOk(w, m) && OwnProposalsOk(sys, w, i, m)
    ensures CollectedOk(w, m') && OwnProposalsOk(sys, w, i, m')
  {
  }

  lemma ProposalKeepsShared(sys: Sys, w: World, m: Views, m': Views, view: nat, node: Node, j: Option<QC>, sender: nat)
    requires ValidSys(sys)
    requires forall v: nat :: ProposalAdded(sys.cfg.n, At(m, v), At(m', v), v, view, node, j, sender)
    requires sender in w.reps ==> At(w.reps[sender].core.viewData, view).proposal == Some((node, j))
    requires SharedProposalsOk(sys, w, m)
    ensures SharedProposalsOk(sys, w, m')
  {
    forall v: nat | At(m', v).proposal.Some? && Leader(sys.cfg.n, v) in w.reps
      ensures At(w.reps[Leader(sys.cfg.n, v)].core.viewData, v).proposal == At(m', v).proposal
    {
      assert ProposalAdded(sys.cfg.n, At(m, v), At(m', v), v, view, node, j, sender);
    }
  }

  lemma ProposalAdvances(env: Env, r: Replica, view: nat, node: Node, j: Option<QC>, sender: nat)
    requires ValidEnv(env)
    ensures Advances(env.me, r, HandleProposal(env, r, view, node, j, sender))
  {
  }

  lemma ReceivedKeepsProposals(sys: Sys, w: World, i: nat, view: nat, node: Node, j: Option<QC>, sender: nat)
    requires ValidSys(sys) && ProposalInv(sys, w) && i in w.reps && i < sys.cfg.n && sender != i
    requires sender in w.reps ==> At(w.reps[sender].core.viewData, view).proposal == Some((node, j))
    ensures ProposalInv(sys, Publish(w, i, HandleProposal(EnvOf(sys, i), w.reps[i], view, node, j, sender)))
  {
    var r := w.reps[i];
    var r' := HandleProposal(EnvOf(sys, i), r, view, node, j, sender);
    QuietLog(w, i, r');
    ProposalAdvances(EnvOf(sys, i), r, view, node, j, sender);
    ReplicaStable(sys, w, i, r', i, r);
    ProposalOwn(sys, Publish(w, i, r'), i, r, view, node, j, sender);
    AdoptProposals(sys, w, i, r');
  }

  /** A quorum of NEW-VIEW messages and the highest justify among them cover the proposal. */
  lemma CollectedCover(sys: Sys, w: World, v: nat, msgs: NewViews, high: Option<QC>)
    requires ValidSys(sys) && HasReplicas(sys, w) && v >= 1 && Highest(msgs, high) && |msgs| >= Quorum(sys.cfg.n)
    requires forall s | s in msgs :: s < sys.cfg.n
    requires forall s | s in msgs && s in w.reps :: Reported(w, s, v - 1, msgs[s])
    ensures Covered(sys, w, v, high)
  {
    forall s | s in msgs.Keys ensures s in Coverers(sys, w, v, high) {
      if s in w.reps { assert CoveredBy(w, s, v, high); }
    }
    SubsetSize(msgs.Keys, Coverers(sys, w, v, high));
  }

  lemma ProposeOwn(sys: Sys, w: World, i: nat, r: Replica, r': Replica, leaf: Node, high: Option<QC>)
    requires ValidSys(sys) && i < sys.cfg.n && ReplicaOk(sys, w, i, r)
    requires var v, d := r.core.view, Vd(r.core, r.core.view);
             && Leader(sys.cfg.n, v) == i && Prepare !in d.sent
             && r'.core.view == v
             && r'.core.viewData
                == Put(r.core.viewData, v, d.(proposal := Some((leaf, high)), sent := d.sent + {Prepare}))
             && r'.io.outbox == r.io.outbox + ToPeers(EnvOf(sys, i), Proposal(v, leaf, high, i))
    requires i in w.reps && w.reps[i].core.viewData == r'.core.viewData
    requires Covered(sys, w, r.core.view, high)
    ensures ReplicaOk(sys, w, i, r')
  {
    var m, m' := r.core.viewData, r'.core.viewData;
    assert forall v: nat :: At(m', v).newViews == At(m, v).newViews;
    assert CollectedOk(w, m');
    assert forall v: nat | v != r.core.view :: At(m', v) == At(m, v);
    assert At(m, r.core.view).proposal.None?;
    assert SharedProposalsOk(sys, w, m') by {
      forall v: nat | At(m', v).proposal.Some? && Leader(sys.cfg.n, v) in w.reps
        ensures At(w.reps[Leader(sys.cfg.n, v)].core.viewData, v).proposal == At(m', v).proposal
      {
        if v != r.core.view { assert At(m, v).proposal == At(m', v).proposal; }
      }
    }
  }

  lemma ProposeAdvances(env: Env, r: Replica, high: Option<QC>)
    requires ValidEnv(env)
    ensures Advances(env.me, r, LeaderPrepare(env, r, high))
  {
  }

  /** What a proposing leader changed, when it had not proposed before. */
  lemma ProposeShape(env: Env, r: Replica, high: Option<QC>) returns (leaf: Node)
    requires ValidEnv(env) && LeaderPrepare(env, r, high) != r && Vd(r.core, r.core.view).proposal.None?
    ensures var r' := LeaderPrepare(env, r, high);
            var d := Vd(r.core, r.core.view);
            && CanPropose(env, r)
            && r'.core.view == r.core.view
            && r'.core.viewData
               == Put(r.core.viewData, r.core.view, d.(proposal := Some((leaf, high)), sent := d.sent + {Prepare}))
            && r'.io.outbox == r.io.outbox + ToPeers(env, Proposal(r.core.view, leaf, high, env.me))
            && r'.io.signed == r.io.signed
  {
    var height := NextHeight(r.core.tree, high);
    leaf := Node(JustifiedNode(high), env.blocks(height.value).cmd, height.value);
  }

  /** A proposing leader's own data is good afterwards. */
  lemma ProposeReplica(sys: Sys, w: World, i: nat, high: Option<QC>)
    requires ValidSys(sys) && HasReplicas(sys, w) && i in w.reps && ReplicaOk(sys, w, i, w.reps[i])
    requires NewViewsOk(sys.cfg, w.log, Vd(w.reps[i].core, PrevView(w.reps[i].core)).newViews)
    requires Highest(Vd(w.reps[i].core, PrevView(w.reps[i].core)).newViews, high)
    requires LeaderPrepare(EnvOf(sys, i), w.reps[i], high) != w.reps[i]
    ensures var r' := LeaderPrepare(EnvOf(sys, i), w.reps[i], high); ReplicaOk(sys, Publish(w, i, r'), i, r')
  {
    var env, r := EnvOf(sys, i), w.reps[i];
    var r' := LeaderPrepare(env, r, high);
    assert Leader(sys.cfg.n, r.core.view) == i && Prepare !in Vd(r.core, r.core.view).sent;
    var leaf := ProposeShape(env, r, high);
    ProposeAdvances(env, r, high);
    ReplicaStable(sys, w, i, r', i, r);
    CollectedCover(sys, w, r.core.view, Vd(r.core, PrevView(r.core)).newViews, high);
    CoveredStable(sys, w, i, r', r.core.view, high);
    ProposeOwn(sys, Publish(w, i, r'), i, r, r', leaf, high);
  }

  lemma ProposeKeepsProposals(sys: Sys, w: World, i: nat, high: Option<QC>)
    requires ValidSys(sys) && HasReplicas(sys, w) && ProposalInv(sys, w) && i in w.reps && i < sys.cfg.n
    requires NewViewsOk(sys.cfg, w.log, Vd(w.reps[i].core, PrevView(w.reps[i].core)).newViews)
    requires CanPropose(EnvOf(sys, i), w.reps[i])
         ==> Highest(Vd(w.reps[i].core, PrevView(w.reps[i].core)).newViews, high)
    ensures ProposalInv(sys, Publish(w, i, LeaderPrepare(EnvOf(sys, i), w.reps[i], high)))
  {
    var env, r := EnvOf(sys, i), w.reps[i];
    var r' := LeaderPrepare(env, r, high);
    QuietLog(w, i, r');
    if r' == r {
      QuietPlainStep(sys, w, i, r');
    } else {
      ProposeAdvances(env, r, high);
      ProposeReplica(sys, w, i, high);
      AdoptProposals(sys, w, i, r');
    }
  }

  // ----- steps of a whole world -----

  lemma PhaseQcPlain(env: Env, r: Replica, kind: MsgType, view: nat, cert: QC, sender: nat)
    requires ValidEnv(env)
    ensures Plain(env.me, r, HandlePhaseQc(env, r, kind, view, cert, sender))
  {
    var r' := HandlePhaseQc(env, r, kind, view, cert, sender);
    forall v: nat ensures SameReports(At(r.core.viewData, v), At(r'.core.viewData, v)) {
      StageReports(r.core, kind, view, cert, v);
      StageReports(r.core.(decided := r.core.decided + {cert.node}), kind, view, cert, v);
    }
  }

  lemma VotePlain(env: Env, r: Replica, kind: MsgType, view: nat, h: Hash, voter: nat, sig: Sig)
    requires ValidEnv(env)
    ensures Plain(env.me, r, HandleVote(env, r, kind, view, h, voter, sig))
  {
  }

  lemma QuietPlainStep(sys: Sys, w: World, i: nat, r': Replica)
    requires ValidSys(sys) && ProposalInv(sys, w) && i in w.reps && Plain(i, w.reps[i], r')
    requires r'.io.signed == w.reps[i].io.signed
    ensures ProposalInv(sys, Publish(w, i, r'))
  {
    QuietLog(w, i, r');
    PlainStep(sys, w, i, r');
  }

  lemma MessageKeepsProposals(sys: Sys, w: World, i: nat, msg: Wire)
    requires ValidSys(sys) && Inv(sys, w) && ProposalInv(sys, w) && i in w.reps && Deliverable(sys, w, i, msg)
    ensures ProposalInv(sys, Publish(w, i, HandleMsg(EnvOf(sys, i), w.reps[i], msg)))
  {
    var env, r := EnvOf(sys, i), w.reps[i];
    DeliveredGenuine(sys, w, i, msg);
    match msg
    case Hello(_) => QuietPlainStep(sys, w, i, r);
    case Proposal(view, node, j, sender) => ReceivedKeepsProposals(sys, w, i, view, node, j, sender);
    case NewViewMsg(view, j, sender) => NewViewKeepsProposals(sys, w, i, view, j, sender);
    case PhaseQc(kind, view, cert, sender) =>
      PhaseQcPlain(env, r, kind, view, cert, sender);
      QuietPlainStep(sys, w, i, HandleMsg(env, r, msg));
    case Vote(kind, view, h, voter, sig) =>
      VotePlain(env, r, kind, view, h, voter, sig);
      QuietPlainStep(sys, w, i, HandleMsg(env, r, msg));
  }

  lemma TimerKeepsProposals(sys: Sys, w: World, i: nat, view: nat)
    requires ValidSys(sys) && ProposalInv(sys, w) && i in w.reps && i < sys.cfg.n
    requires PrepareOk(sys.cfg, w.log, i, w.reps[i].core.prepareQc)
    ensures ProposalInv(sys, Publish(w, i, HandleTimer(EnvOf(sys, i), w.reps[i], view)))
  {
    var env, r := EnvOf(sys, i), w.reps[i];
    var r1 := r.(io := r.io.(timers := r.io.timers - {view}));
    if view != r.core.view || Decide in Vd(r.core, view).seen {
      QuietPlainStep(sys, w, i, r1);
    } else {
      EnterKeepsProposals(sys, w, i, r1.(core := r.core.(timeout := SaturatingDouble(r.core.timeout))), Timeout);
    }
  }

  lemma EventKeepsProposals(sys: Sys, w: World, i: nat, ev: Event)
    requires ValidSys(sys) && Inv(sys, w) && ProposalInv(sys, w) && i in w.reps && EventOk(w.reps[i], ev)
    requires ev.Deliver? ==> Deliverable(sys, w, i, ev.msg)
    ensures ProposalInv(sys, Publish(w, i, Handle(EnvOf(sys, i), w.reps[i], ev)))
  {
    match ev
    case Deliver(msg) => MessageKeepsProposals(sys, w, i, msg);
    case Timer(view) =>
      RuleNeeds(sys, w, i);
      TimerKeepsProposals(sys, w, i, view);
    case _ => ExecKeepsProposals(sys, w, i, Handle(EnvOf(sys, i), w.reps[i], ev).exec);
  }

  lemma DecideKeepsProposals(sys: Sys, w: World, i: nat)
    requires ValidSys(sys) && ProposalInv(sys, w) && i in w.reps && i < sys.cfg.n
    requires PrepareOk(sys.cfg, w.log, i, w.reps[i].core.prepareQc)
    ensures ProposalInv(sys, Publish(w, i, ReplicaDecide(EnvOf(sys, i), w.reps[i])))
  {
    var env, r := EnvOf(sys, i), w.reps[i];
    var mid := DecideShape(env, r);
    if ReplicaDecide(env, r) == mid {
      QuietPlainStep(sys, w, i, mid);
    } else {
      EnterKeepsProposals(sys, w, i, mid, Decision);
    }
  }

  lemma RuleNeeds(sys: Sys, w: World, i: nat)
    requires ValidSys(sys) && Inv(sys, w) && i in w.reps
    ensures HasReplicas(sys, w) && PrepareOk(sys.cfg, w.log, i, w.reps[i].core.prepareQc)
    ensures NewViewsOk(sys.cfg, w.log, Vd(w.reps[i].core, PrevView(w.reps[i].core)).newViews)
  {
    var c := w.reps[i].core;
    assert ViewOk(sys.cfg, w.log, PrevView(c), At(c.viewData, PrevView(c)));
  }

  lemma FormKeepsProposals(sys: Sys, w: World, i: nat, kind: MsgType, formed: Option<QC>)
    requires ValidSys(sys) && ProposalInv(sys, w) && i in w.reps && i < sys.cfg.n
    ensures ProposalInv(sys, Publish(w, i, LeaderPhase(EnvOf(sys, i), w.reps[i], kind, formed)))
  {
    FormPlain(EnvOf(sys, i), w.reps[i], kind, formed);
    QuietPlainStep(sys, w, i, LeaderPhase(EnvOf(sys, i), w.reps[i], kind, formed));
  }

  lemma ExecKeepsProposals(sys: Sys, w: World, i: nat, ex: Exec)
    requires ValidSys(sys) && ProposalInv(sys, w) && i in w.reps
    ensures ProposalInv(sys, Publish(w, i, w.reps[i].(exec := ex)))
  {
    QuietPlainStep(sys, w, i, w.reps[i].(exec := ex));
  }

  lemma RuleKeepsProposals(sys: Sys, w: World, i: nat, rule: Rule)
    requires ValidSys(sys) && Inv(sys, w) && ProposalInv(sys, w) && i in w.reps
    requires RuleOk(EnvOf(sys, i), w.reps[i], rule)
    ensures ProposalInv(sys, Publish(w, i, Fire(EnvOf(sys, i), w.reps[i], rule)))
  {
    RuleNeeds(sys, w, i);
    FiredKeepsProposals(sys, w, i, rule);
  }

  lemma FiredKeepsProposals(sys: Sys, w: World, i: nat, rule: Rule)
    requires ValidSys(sys) && HasReplicas(sys, w) && ProposalInv(sys, w) && i in w.reps
    requires PrepareOk(sys.cfg, w.log, i, w.reps[i].core.prepareQc)
    requires NewViewsOk(sys.cfg, w.log, Vd(w.reps[i].core, PrevView(w.reps[i].core)).newViews)
    requires RuleOk(EnvOf(sys, i), w.reps[i], rule)
    ensures ProposalInv(sys, Publish(w, i, Fire(EnvOf(sys, i), w.reps[i], rule)))
  {
    var env, r := EnvOf(sys, i), w.reps[i];
    if r.exec.panicked {
      ExecKeepsProposals(sys, w, i, r.exec);
      return;
    }
    match rule
    case PrepareRule => PrepareKeepsProposals(sys, w, i);
    case PhaseRule(kind) => PhaseKeepsProposals(sys, w, i, kind);
    case ProposeRule(high) => ProposeKeepsProposals(sys, w, i, high);
    case FormRule(kind, formed) => FormKeepsProposals(sys, w, i, kind, formed);
    case DecideRule => DecideKeepsProposals(sys, w, i);
    case RetryRule(order) => ExecKeepsProposals(sys, w, i, RetryPending(env, r.core.tree, r.exec, order));
    case KickRule(order) => ExecKeepsProposals(sys, w, i, KickPending(env, r.core.tree, r.exec, order));
  }

  // ----- no hidden lock -----

  /** If the lock is older than the proposal's view, the justify is newer than the lock or names its node. */
  lemma LockCovered(sys: Sys, w: World, v: nat, high: Option<QC>, lock: QC)
    requires ValidSys(sys) && Inv(sys, w) && Covered(sys, w, v, high) && GoodJustify(sys.cfg, w.log, high)
    requires GoodQc(sys.cfg, w.log, lock) && lock.kind == PreCommit && lock.view < v
    ensures high.Some? && (high.value.view > lock.view || high.value.node == lock.node)
  {
    GoodQcCertified(sys.cfg, w.log, lock);
    var s := QuorumsIntersect(sys.cfg, Coverers(sys, w, v, high),
                              Supporters(sys.cfg, w.log, PreCommit, lock.view, lock.node));
    assert Ballot(s, PreCommit, lock.view, lock.node) in w.log && CoveredBy(w, s, v, high);
    if high.value.view == lock.view {
      GoodQcCertified(sys.cfg, w.log, high.value);
      CertificateUnique(sys.cfg, w.log, PreCommit, lock.node, high.value.kind, high.value.node, lock.view);
    }
  }

  /** A lock taken in the proposal's own view is on the proposed node. */
  lemma LockOfSameView(sys: Sys, w: World, v: nat, leaf: Node, high: Option<QC>, lock: QC)
    requires ValidSys(sys) && Inv(sys, w) && ProposalInv(sys, w)
    requires Leader(sys.cfg.n, v) in w.reps
    requires At(w.reps[Leader(sys.cfg.n, v)].core.viewData, v).proposal == Some((leaf, high))
    requires GoodQc(sys.cfg, w.log, lock) && lock.view == v
    ensures lock.node == NodeHash(leaf)
  {
    GoodQcCertified(sys.cfg, w.log, lock);
    var k := CertifiedPrepare(sys.cfg, w.log, lock.kind, v, lock.node);
    var s := CorrectSupporter(sys.cfg, w.log[..k], Prepare, v, lock.node);
    assert VotedProposal(w, Ballot(s, Prepare, v, lock.node));
    assert SharedProposalsOk(sys, w, w.reps[s].core.viewData);
  }

  /** No hidden lock: what a correct leader proposed in view v passes SafeNode at every correct
      replica that has not left view v, whatever that replica is locked on. */
  lemma NoHiddenLock(sys: Sys, w: World, e: Envelope, i: nat)
    requires ValidSys(sys) && Inv(sys, w) && ProposalInv(sys, w) && i in w.reps
    requires e.msg.Proposal? && e.msg.sender in w.reps && e in w.reps[e.msg.sender].io.outbox
    requires w.reps[i].core.view <= e.msg.view
    ensures SafeNode(e.msg.node, e.msg.justify, w.reps[i].core.lockedQc, w.reps[i].core.tree)
  {
    var l, v, leaf, high := e.msg.sender, e.msg.view, e.msg.node, e.msg.justify;
    assert ReplicaOk(sys, w, l, w.reps[l]) && Leader(sys.cfg.n, v) == l;
    assert ViewOk(sys.cfg, w.log, v, At(w.reps[l].core.viewData, v));
    assert ProposalOk(sys.cfg, w.log, (leaf, high));
    var lockedQc := w.reps[i].core.lockedQc;
    if lockedQc.Some? {
      var lock := lockedQc.value;
      assert LockOk(sys.cfg, w.log, i, lockedQc);
      assert lock.view <= w.reps[i].core.view;
      if lock.view == v {
        LockOfSameView(sys, w, v, leaf, high, lock);
      } else {
        assert Covered(sys, w, v, high);
        LockCovered(sys, w, v, high, lock);
      }
    }
  }
}
