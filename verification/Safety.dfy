/** The safety invariant: what correct replicas hold and signed, as recorded by the vote log. */
module Safety {
  import opened Messages
  import opened Quorums
  import opened Certificates
  import opened Replicas
  import opened VoteLog
  import opened Systems

  // ----- certificates held by correct replicas -----

  ghost predicate GoodQc(c: Config, log: Log, qc: QC)
  {
    QcVerifies(qc, Quorum(c.n), KeyMap(c.n)) && SigsKnown(c, log, qc)
  }

  ghost predicate GoodJustify(c: Config, log: Log, j: Option<QC>)
  {
    j.Some? ==> GoodQc(c, log, j.value)
  }

  /** A verified certificate without forged signatures is backed by the log. */
  lemma GoodQcCertified(c: Config, log: Log, qc: QC)
    requires GoodQc(c, log, qc)
    ensures Certified(c, log, qc.kind, qc.view, qc.node)
  {
    var signers, backers := ValidSigners(qc, KeyMap(c.n)), Supporters(c, log, qc.kind, qc.view, qc.node);
    assert signers <= backers;
    SubsetSize(signers, backers);
  }

  // ----- local invariants of replica i -----

  ghost predicate BallotsOk(log: Log, i: nat, r: Replica) {
    forall b :: b in r.io.signed <==> b in log && b.voter == i
  }

  ghost predicate VotedOk(log: Log, i: nat, view: nat, views: Views) {
    forall b | b in log && b.voter == i :: b.view <= view && b.kind in At(views, b.view).voted
  }

  ghost predicate LockOk(cfg: Config, log: Log, i: nat, locked: Option<QC>)
  {
    match locked
    case None => forall b | b in log && b.voter == i :: b.kind != Commit
    case Some(q) => GoodQc(cfg, log, q) && q.kind == PreCommit && Locked(log, i, q.view, q.node)
  }

  ghost predicate PrepareOk(cfg: Config, log: Log, i: nat, prepared: Option<QC>)
  {
    match prepared
    case None => forall b | b in log && b.voter == i :: b.kind != PreCommit
    case Some(q) =>
      && GoodQc(cfg, log, q) && q.kind == Prepare && Ballot(i, PreCommit, q.view, q.node) in log
      && forall b | b in log && b.voter == i && b.kind == PreCommit :: b.view <= q.view
  }

  ghost predicate StagedOk(cfg: Config, log: Log, staged: map<(MsgType, nat), QC>)
  {
    forall p | p in staged ::
      GoodQc(cfg, log, staged[p]) && CertKind(p.0) == Some(staged[p].kind) && staged[p].view == p.1
  }

  ghost predicate BucketOk(cfg: Config, log: Log, votes: Votes, kind: MsgType, view: nat) {
    && BucketVerified(votes, kind, view, cfg.n)
    && forall s | s in votes && Correct(cfg, s) :: Ballot(s, kind, view, votes[s].0) in log
  }

  ghost predicate ProposalOk(cfg: Config, log: Log, p: (Node, Option<QC>))
  {
    GoodJustify(cfg, log, p.1) && p.0.parent == JustifiedNode(p.1)
  }

  ghost predicate NewViewsOk(cfg: Config, log: Log, msgs: NewViews)
  {
    forall s | s in msgs :: s < cfg.n && GoodJustify(cfg, log, msgs[s])
  }

  ghost predicate ViewOk(cfg: Config, log: Log, v: nat, d: ViewData)
  {
    && (forall kind :: BucketOk(cfg, log, Bucket(d.votes, kind), kind, v))
    && (d.proposal.Some? ==> ProposalOk(cfg, log, d.proposal.value))
    && NewViewsOk(cfg, log, d.newViews)
  }

  ghost predicate ViewsOk(cfg: Config, log: Log, views: Views)
  {
    forall v: nat :: ViewOk(cfg, log, v, At(views, v))
  }

  ghost predicate DecidedOk(cfg: Config, log: Log, decided: set<Hash>)
  {
    forall h | h in decided :: HasCommit(cfg, log, h)
  }

  ghost predicate HasCommit(cfg: Config, log: Log, h: Hash) {
    exists v :: Certified(cfg, log, Commit, v, h)
  }

  lemma DecidedAdds(cfg: Config, log: Log, decided: set<Hash>, qc: QC)
    requires DecidedOk(cfg, log, decided) && GoodQc(cfg, log, qc) && qc.kind == Commit
    ensures DecidedOk(cfg, log, decided + {qc.node})
  {
    GoodQcCertified(cfg, log, qc);
    assert HasCommit(cfg, log, qc.node);
  }

  /** A message sent by i speaks in its own name and carries only genuine signatures. */
  ghost predicate SentOk(cfg: Config, log: Log, i: nat, msg: Wire)
  {
    Claimant(msg) == i &&
    match msg
    case Hello(_) => true
    case Proposal(_, _, j, _) => GoodJustify(cfg, log, j)
    case PhaseQc(_, _, qc, _) => GoodQc(cfg, log, qc)
    case Vote(kind, v, h, _, sig) => sig == Sig(i, kind, v, h) && Ballot(i, kind, v, h) in log
    case NewViewMsg(_, j, _) => GoodJustify(cfg, log, j)
  }

  ghost predicate OutboxOk(cfg: Config, log: Log, i: nat, outbox: set<Envelope>)
  {
    forall e | e in outbox :: e.to != i && SentOk(cfg, log, i, e.msg)
  }

  /** What i stores or sent, backed by ballots in the log. */
  ghost predicate Held(cfg: Config, log: Log, i: nat, r: Replica)
  {
    && StagedOk(cfg, log, r.core.staged) && ViewsOk(cfg, log, r.core.viewData)
    && DecidedOk(cfg, log, r.core.decided) && OutboxOk(cfg, log, i, r.io.outbox)
  }

  /** What i signed, as its flags, lock and prepareQC record it. */
  ghost predicate Signed(cfg: Config, log: Log, i: nat, r: Replica)
  {
    && BallotsOk(log, i, r) && VotedOk(log, i, r.core.view, r.core.viewData)
    && LockOk(cfg, log, i, r.core.lockedQc) && PrepareOk(cfg, log, i, r.core.prepareQc)
  }

  ghost predicate Local(cfg: Config, log: Log, i: nat, r: Replica)
  {
    Held(cfg, log, i, r) && Signed(cfg, log, i, r)
  }

  ghost predicate Inv(sys: Sys, w: World)
    requires ValidSys(sys)
  {
    && HasReplicas(sys, w) && LogOk(sys.cfg, w.log)
    && forall i | i in w.reps :: Local(sys.cfg, w.log, i, w.reps[i])
  }

  // ----- growing the log -----

  ghost predicate LogGrows(log: Log, log': Log) {
    forall b | b in log :: b in log'
  }

  lemma DecidedGrows(cfg: Config, log: Log, log': Log, decided: set<Hash>)
    requires LogGrows(log, log') && DecidedOk(cfg, log, decided)
    ensures DecidedOk(cfg, log', decided)
  {
    forall h | h in decided ensures HasCommit(cfg, log', h) {
      assert HasCommit(cfg, log, h);
      var v :| Certified(cfg, log, Commit, v, h);
      CertifiedMonotone(cfg, log, log', Commit, v, h);
    }
  }

  lemma ViewGrows(cfg: Config, log: Log, log': Log, v: nat, d: ViewData)
    requires LogGrows(log, log') && ViewOk(cfg, log, v, d)
    ensures ViewOk(cfg, log', v, d)
  {
    forall kind ensures BucketOk(cfg, log', Bucket(d.votes, kind), kind, v) {
      assert BucketOk(cfg, log, Bucket(d.votes, kind), kind, v);
    }
  }

  lemma HeldGrows(cfg: Config, log: Log, log': Log, i: nat, r: Replica)
    requires LogGrows(log, log') && Held(cfg, log, i, r)
    ensures Held(cfg, log', i, r)
  {
    DecidedGrows(cfg, log, log', r.core.decided);
    forall v: nat ensures ViewOk(cfg, log', v, At(r.core.viewData, v)) {
      ViewGrows(cfg, log, log', v, At(r.core.viewData, v));
    }
    assert OutboxOk(cfg, log', i, r.io.outbox) by {
      forall e | e in r.io.outbox ensures SentOk(cfg, log', i, e.msg) {
        assert SentOk(cfg, log, i, e.msg);
      }
    }
  }

  lemma SignedByOther(cfg: Config, log: Log, b: Ballot, i: nat, r: Replica)
    requires Signed(cfg, log, i, r) && b.voter != i
    ensures Signed(cfg, log + [b], i, r)
  {
    assert forall x | x in log + [b] && x.voter == i :: x in log;
  }

  // ----- adopting a new state of one replica -----

  /** A move of replica i: no ballot and still good, or one ballot the log allows. */
  ghost predicate MoveOk(cfg: Config, log: Log, i: nat, r: Replica, r': Replica)
  {
    || (r'.io.signed == r.io.signed && Local(cfg, log, i, r'))
    || exists b :: r'.io.signed == r.io.signed + [b] && CastOk(cfg, log, i, r', b)
  }

  ghost predicate CastOk(cfg: Config, log: Log, i: nat, r': Replica, b: Ballot)
  {
    b.voter == i && EntryOk(cfg, log, b) && Local(cfg, log + [b], i, r')
  }

  /** Another replica's ballot does not disturb the rest. */
  lemma OthersKeep(sys: Sys, w: World, i: nat, b: Ballot)
    requires ValidSys(sys) && Inv(sys, w) && b.voter == i
    ensures forall j | j in w.reps && j != i :: Local(sys.cfg, w.log + [b], j, w.reps[j])
  {
    forall j | j in w.reps && j != i ensures Local(sys.cfg, w.log + [b], j, w.reps[j]) {
      HeldGrows(sys.cfg, w.log, w.log + [b], j, w.reps[j]);
      SignedByOther(sys.cfg, w.log, b, j, w.reps[j]);
    }
  }

  lemma AdoptQuiet(sys: Sys, w: World, i: nat, r': Replica)
    requires ValidSys(sys) && Inv(sys, w) && i in w.reps
    requires r'.io.signed == w.reps[i].io.signed && Local(sys.cfg, w.log, i, r')
    ensures Inv(sys, Publish(w, i, r'))
  {
    assert Publish(w, i, r').log == w.log;
  }

  lemma AdoptBallot(sys: Sys, w: World, i: nat, r': Replica, b: Ballot)
    requires ValidSys(sys) && Inv(sys, w) && i in w.reps
    requires r'.io.signed == w.reps[i].io.signed + [b] && CastOk(sys.cfg, w.log, i, r', b)
    ensures Inv(sys, Publish(w, i, r'))
  {
    assert Publish(w, i, r').log == w.log + [b];
    LogOkAppend(sys.cfg, w.log, b);
    OthersKeep(sys, w, i, b);
  }

  lemma Adopt(sys: Sys, w: World, i: nat, r': Replica)
    requires ValidSys(sys) && Inv(sys, w) && i in w.reps && MoveOk(sys.cfg, w.log, i, w.reps[i], r')
    ensures Inv(sys, Publish(w, i, r'))
  {
    var r := w.reps[i];
    if b :| r'.io.signed == r.io.signed + [b] && CastOk(sys.cfg, w.log, i, r', b) {
      AdoptBallot(sys, w, i, r', b);
    } else {
      AdoptQuiet(sys, w, i, r');
    }
  }
}
