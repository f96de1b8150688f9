/** No hidden lock: what NEW-VIEW messages and proposals of correct replicas guarantee. */
module Proposals {
  import opened Messages
  import opened Quorums
  import opened Replicas
  import opened Systems
  import opened Safety

  /** s left view u reporting a prepareQC at least as new as each PRE-COMMIT ballot it cast until then. */
  ghost predicate Reported(w: World, s: nat, u: nat, j: Option<QC>) {
    && s in w.reps && u < w.reps[s].core.view
    && forall b | b in w.log && b.voter == s && b.kind == PreCommit && b.view <= u ::
         j.Some? && b.view <= j.value.view
  }

  ghost predicate CollectedOk(w: World, views: Views) {
    forall u: nat, s | s in At(views, u).newViews && s in w.reps :: Reported(w, s, u, At(views, u).newViews[s])
  }

  ghost predicate SentNewViewsOk(w: World, i: nat, outbox: set<Envelope>) {
    forall e | e in outbox && e.msg.NewViewMsg? :: Reported(w, i, e.msg.view, e.msg.justify)
  }

  /** Replicas whose PRE-COMMIT ballots before view v are all covered by `high`. */
  ghost function Coverers(sys: Sys, w: World, v: nat, high: Option<QC>): set<nat> {
    set s | s in Ids(sys.cfg.n) && (s in sys.cfg.faulty || CoveredBy(w, s, v, high))
  }

  ghost predicate CoveredBy(w: World, s: nat, v: nat, high: Option<QC>) {
    && s in w.reps && v <= w.reps[s].core.view
    && forall b | b in w.log && b.voter == s && b.kind == PreCommit && b.view < v ::
         high.Some? && b.view <= high.value.view
  }

  /** The proposal of view v with this justify was built on a quorum of NEW-VIEW reports. */
  ghost predicate Covered(sys: Sys, w: World, v: nat, high: Option<QC>) {
    |Coverers(sys, w, v, high)| >= Quorum(sys.cfg.n)
  }

  /** A leader's stored proposal is the one it sent, and is covered. */
  ghost predicate OwnProposalsOk(sys: Sys, w: World, i: nat, views: Views)
    requires ValidSys(sys)
  {
    forall v: nat | Leader(sys.cfg.n, v) == i ::
      && (At(views, v).proposal.Some? <==> Prepare in At(views, v).sent)
      && (At(views, v).proposal.Some? ==> Covered(sys, w, v, At(views, v).proposal.value.1))
  }

  ghost predicate SentProposalsOk(sys: Sys, i: nat, views: Views, outbox: set<Envelope>)
    requires ValidSys(sys)
  {
    forall e | e in outbox && e.msg.Proposal? ::
      && Leader(sys.cfg.n, e.msg.view) == i
      && At(views, e.msg.view).proposal == Some((e.msg.node, e.msg.justify))
  }

  /** In a view led by a correct replica everyone stores the leader's proposal. */
  ghost predicate SharedProposalsOk(sys: Sys, w: World, views: Views)
    requires ValidSys(sys)
  {
    forall v: nat | At(views, v).proposal.Some? && Leader(sys.cfg.n, v) in w.reps ::
      At(w.reps[Leader(sys.cfg.n, v)].core.viewData, v).proposal == At(views, v).proposal
  }

  /** PREPARE ballots are for the stored proposal. */
  ghost predicate VotedProposal(w: World, b: Ballot) {
    b.kind == Prepare && b.voter in w.reps ==>
      var p := At(w.reps[b.voter].core.viewData, b.view).proposal;
      p.Some? && NodeHash(p.value.0) == b.node
  }

  ghost predicate ReplicaOk(sys: Sys, w: World, i: nat, r: Replica)
    requires ValidSys(sys)
  {
    && r.core.view >= 1
    && CollectedOk(w, r.core.viewData)
    && SentNewViewsOk(w, i, r.io.outbox)
    && OwnProposalsOk(sys, w, i, r.core.viewData)
    && SentProposalsOk(sys, i, r.core.viewData, r.io.outbox)
    && SharedProposalsOk(sys, w, r.core.viewData)
  }

  ghost predicate ProposalInv(sys: Sys, w: World)
    requires ValidSys(sys)
  {
    && (forall i | i in w.reps :: ReplicaOk(sys, w, i, w.reps[i]))
    && (forall b | b in w.log :: VotedProposal(w, b))
  }

  // ----- what every move respects -----

  /** Views go up, stored proposals and sent flags stay, a new ballot is of the current view. */
  ghost predicate Advances(i: nat, r: Replica, r': Replica) {
    && r.core.view <= r'.core.view
    && (forall v: nat :: Kept(At(r.core.viewData, v), At(r'.core.viewData, v)))
    && r.io.outbox <= r'.io.outbox
    && (|| r'.io.signed == r.io.signed
        || exists b :: r'.io.signed == r.io.signed + [b] && b.voter == i && b.view == r.core.view)
  }

  ghost predicate Kept(d: ViewData, d': ViewData) {
    (d.proposal.Some? ==> d'.proposal == d.proposal) && d.sent <= d'.sent
  }

  /** The ballots a move adds are the mover's, of its current view. */
  lemma NewBallots(w: World, i: nat, r': Replica)
    requires i in w.reps && Advances(i, w.reps[i], r')
    ensures forall b | b in Publish(w, i, r').log && b !in w.log :: b.voter == i && b.view == w.reps[i].core.view
    ensures LogGrows(w.log, Publish(w, i, r').log)
  {
    var r := w.reps[i];
    if b :| r'.io.signed == r.io.signed + [b] && b.voter == i && b.view == r.core.view {
      assert r'.io.signed[|r.io.signed|..] == [b];
    }
  }

  lemma ReportedStable(w: World, i: nat, r': Replica, s: nat, u: nat, j: Option<QC>)
    requires i in w.reps && Advances(i, w.reps[i], r') && Reported(w, s, u, j)
    ensures Reported(Publish(w, i, r'), s, u, j)
  {
    NewBallots(w, i, r');
  }

  lemma CoveredStable(sys: Sys, w: World, i: nat, r': Replica, v: nat, high: Option<QC>)
    requires ValidSys(sys) && i in w.reps && Advances(i, w.reps[i], r') && Covered(sys, w, v, high)
    ensures Covered(sys, Publish(w, i, r'), v, high)
  {
    var w' := Publish(w, i, r');
    NewBallots(w, i, r');
    forall s | s in Coverers(sys, w, v, high) ensures s in Coverers(sys, w', v, high) {
      assert s in sys.cfg.faulty || CoveredBy(w', s, v, high);
    }
    SubsetSize(Coverers(sys, w, v, high), Coverers(sys, w', v, high));
  }

  lemma CollectedStable(w: World, i: nat, r': Replica, views: Views)
    requires i in w.reps && Advances(i, w.reps[i], r') && CollectedOk(w, views)
    ensures CollectedOk(Publish(w, i, r'), views)
  {
    var w' := Publish(w, i, r');
    forall u: nat, s | s in At(views, u).newViews && s in w'.reps ensures Reported(w', s, u, At(views, u).newViews[s]) {
      ReportedStable(w, i, r', s, u, At(views, u).newViews[s]);
    }
  }

  lemma SentNewViewsStable(w: World, i: nat, r': Replica, j: nat, outbox: set<Envelope>)
    requires i in w.reps && Advances(i, w.reps[i], r') && SentNewViewsOk(w, j, outbox)
    ensures SentNewViewsOk(Publish(w, i, r'), j, outbox)
  {
    forall e | e in outbox && e.msg.NewViewMsg? ensures Reported(Publish(w, i, r'), j, e.msg.view, e.msg.justify) {
      ReportedStable(w, i, r', j, e.msg.view, e.msg.justify);
    }
  }

  lemma OwnProposalsStable(sys: Sys, w: World, i: nat, r': Replica, j: nat, views: Views)
    requires ValidSys(sys) && i in w.reps && Advances(i, w.reps[i], r') && OwnProposalsOk(sys, w, j, views)
    ensures OwnProposalsOk(sys, Publish(w, i, r'), j, views)
  {
    forall v: nat | Leader(sys.cfg.n, v) == j && At(views, v).proposal.Some?
      ensures Covered(sys, Publish(w, i, r'), v, At(views, v).proposal.value.1)
    {
      CoveredStable(sys, w, i, r', v, At(views, v).proposal.value.1);
    }
  }

  lemma SharedStable(sys: Sys, w: World, i: nat, r': Replica, views: Views)
    requires ValidSys(sys) && i in w.reps && Advances(i, w.reps[i], r') && SharedProposalsOk(sys, w, views)
    ensures SharedProposalsOk(sys, Publish(w, i, r'), views)
  {
    forall v: nat | At(views, v).proposal.Some? && Leader(sys.cfg.n, v) in w.reps
      ensures At(Publish(w, i, r').reps[Leader(sys.cfg.n, v)].core.viewData, v).proposal == At(views, v).proposal
    {
      assert Kept(At(w.reps[i].core.viewData, v), At(r'.core.viewData, v));
    }
  }

  /** Everything known about a replica's data stays known after a move of i. */
  lemma ReplicaStable(sys: Sys, w: World, i: nat, r': Replica, j: nat, r: Replica)
    requires ValidSys(sys) && i in w.reps && Advances(i, w.reps[i], r') && ReplicaOk(sys, w, j, r)
    ensures ReplicaOk(sys, Publish(w, i, r'), j, r)
  {
    CollectedStable(w, i, r', r.core.viewData);
    SentNewViewsStable(w, i, r', j, r.io.outbox);
    OwnProposalsStable(sys, w, i, r', j, r.core.viewData);
    SharedStable(sys, w, i, r', r.core.viewData);
  }

  lemma VotedStable(w: World, i: nat, r': Replica, b: Ballot)
    requires i in w.reps && Advances(i, w.reps[i], r') && VotedProposal(w, b)
    ensures VotedProposal(Publish(w, i, r'), b)
  {
    assert Kept(At(w.reps[i].core.viewData, b.view), At(r'.core.viewData, b.view));
  }

  /** A move of i keeps the invariant if i's own data is good afterwards and its new ballots match. */
  lemma AdoptProposals(sys: Sys, w: World, i: nat, r': Replica)
    requires ValidSys(sys) && ProposalInv(sys, w) && i in w.reps && Advances(i, w.reps[i], r')
    requires ReplicaOk(sys, Publish(w, i, r'), i, r')
    requires forall b | b in Publish(w, i, r').log && b !in w.log :: VotedProposal(Publish(w, i, r'), b)
    ensures ProposalInv(sys, Publish(w, i, r'))
  {
    var w' := Publish(w, i, r');
    forall j | j in w'.reps ensures ReplicaOk(sys, w', j, w'.reps[j]) {
      if j != i { ReplicaStable(sys, w, i, r', j, w.reps[j]); }
    }
    forall b | b in w'.log ensures VotedProposal(w', b) {
      if b in w.log { VotedStable(w, i, r', b); }
    }
  }
}
