/** Each handler and rule keeps the local invariants; each vote cast is one the log allows. */
module SafetySteps {
  import opened Messages
  import opened Quorums
  import opened Certificates
  import opened Ancestry
  import opened Execution
  import opened Replicas
  import opened VoteLog
  import opened Systems
  import opened Safety

  ghost predicate IsEnv(cfg: Config, env: Env, i: nat) {
    ValidConfig(cfg) && env.n == cfg.n && env.me == i && i < cfg.n
  }

  /** Replacing the data of one view by good data. */
  lemma PutKeeps(cfg: Config, log: Log, views: Views, v: nat, d: ViewData)
    requires ValidConfig(cfg) && ViewsOk(cfg, log, views) && ViewOk(cfg, log, v, d)
    ensures ViewsOk(cfg, log, Put(views, v, d))
  {
    forall u: nat ensures ViewOk(cfg, log, u, At(Put(views, v, d), u)) {
      if u != v { assert ViewOk(cfg, log, u, At(views, u)); }
    }
  }

  // ----- handlers -----

  /** What arrives was genuinely made, and no replica receives messages in its own name. */
  lemma DeliveredGenuine(sys: Sys, w: World, to: nat, msg: Wire)
    requires ValidSys(sys) && Inv(sys, w) && to in w.reps && Deliverable(sys, w, to, msg)
    ensures Unforged(sys.cfg, w.log, msg) && Claimant(msg) != to
  {
    var s := Claimant(msg);
    if Correct(sys.cfg, s) {
      assert Local(sys.cfg, w.log, s, w.reps[s]);
      assert SentOk(sys.cfg, w.log, s, Envelope(to, msg).msg);
    }
  }

  lemma ProposalKeeps(cfg: Config, log: Log, env: Env, i: nat, r: Replica,
                      view: nat, node: Node, j: Option<QC>, sender: nat)
    requires IsEnv(cfg, env, i) && Local(cfg, log, i, r)
    requires j.Some? ==> SigsKnown(cfg, log, j.value)
    ensures Local(cfg, log, i, HandleProposal(env, r, view, node, j, sender))
  {
    if AcceptsJustify(env, j) && node.parent == JustifiedNode(j) {
      PutKeeps(cfg, log, r.core.viewData, view, Vd(r.core, view).(proposal := Some((node, j))));
    }
  }

  lemma StageKeeps(cfg: Config, log: Log, i: nat, r: Replica, kind: MsgType, view: nat, cert: QC)
    requires ValidConfig(cfg) && Local(cfg, log, i, r)
    requires GoodQc(cfg, log, cert) && CertKind(kind) == Some(cert.kind) && cert.view == view
    ensures Local(cfg, log, i, r.(core := Stage(r.core, kind, view, cert)))
  {
    var d := Vd(r.core, view);
    PutKeeps(cfg, log, r.core.viewData, view, d.(seen := d.seen + {kind}));
  }

  lemma PhaseQcKeeps(cfg: Config, log: Log, env: Env, i: nat, r: Replica,
                     kind: MsgType, view: nat, cert: QC, sender: nat)
    requires IsEnv(cfg, env, i) && Local(cfg, log, i, r) && SigsKnown(cfg, log, cert)
    ensures Local(cfg, log, i, HandlePhaseQc(env, r, kind, view, cert, sender))
  {
    if HandlePhaseQc(env, r, kind, view, cert, sender) != r {
      if kind == Decide { DecidedAdds(cfg, log, r.core.decided, cert); }
      var c := if kind == Decide && Decide !in Vd(r.core, view).seen
               then r.core.(decided := r.core.decided + {cert.node}) else r.core;
      StageKeeps(cfg, log, i, r.(core := c), kind, view, cert);
    }
  }

  lemma AddVoteKeeps(cfg: Config, log: Log, v: nat, d: ViewData, kind: MsgType, voter: nat, h: Hash, sig: Sig)
    requires ValidConfig(cfg) && ViewOk(cfg, log, v, d)
    requires voter < cfg.n && sig == Sig(voter, kind, v, h)
    requires Correct(cfg, voter) ==> Ballot(voter, kind, v, h) in log
    ensures ViewOk(cfg, log, v, d.(votes := AddVote(d.votes, kind, voter, (h, sig))))
  {
    forall k ensures BucketOk(cfg, log, Bucket(AddVote(d.votes, kind, voter, (h, sig)), k), k, v) {
      assert BucketOk(cfg, log, Bucket(d.votes, k), k, v);
    }
  }

  lemma VoteKeeps(cfg: Config, log: Log, env: Env, i: nat, r: Replica,
                  kind: MsgType, view: nat, hash: Hash, voter: nat, sig: Sig)
    requires IsEnv(cfg, env, i) && Local(cfg, log, i, r)
    requires voter != i && Unforged(cfg, log, Vote(kind, view, hash, voter, sig))
    ensures Local(cfg, log, i, HandleVote(env, r, kind, view, hash, voter, sig))
  {
    if voter in KeyMap(env.n) && VerifyVoteSig(KeyMap(env.n)[voter], kind, view, hash, sig) {
      var d := Vd(r.core, view);
      AddVoteKeeps(cfg, log, view, d, kind, voter, hash, sig);
      PutKeeps(cfg, log, r.core.viewData, view, d.(votes := AddVote(d.votes, kind, voter, (hash, sig))));
    }
  }

  lemma NewViewKeeps(cfg: Config, log: Log, env: Env, i: nat, r: Replica, view: nat, j: Option<QC>, sender: nat)
    requires IsEnv(cfg, env, i) && Local(cfg, log, i, r)
    requires sender < cfg.n && (j.Some? ==> SigsKnown(cfg, log, j.value))
    ensures Local(cfg, log, i, HandleNewView(env, r, view, j, sender))
  {
    if AcceptsJustify(env, j) {
      var d := Vd(r.core, view);
      PutKeeps(cfg, log, r.core.viewData, view, d.(newViews := d.newViews[sender := j]));
    }
  }

  lemma EnterKeepsHeld(cfg: Config, log: Log, env: Env, i: nat, r: Replica, cause: Cause)
    requires IsEnv(cfg, env, i) && Held(cfg, log, i, r) && GoodJustify(cfg, log, r.core.prepareQc)
    ensures Held(cfg, log, i, EnterNewView(env, r, cause))
  {
    var v := r.core.view;
    var d := Vd(r.core, v);
    PutKeeps(cfg, log, r.core.viewData, v, d.(newViews := d.newViews[i := r.core.prepareQc]));
    assert SentOk(cfg, log, i, NewViewMsg(v, r.core.prepareQc, i));
  }

  lemma EnterKeepsFlags(env: Env, r: Replica, cause: Cause, v: nat)
    requires ValidEnv(env)
    ensures At(EnterNewView(env, r, cause).core.viewData, v).voted == At(r.core.viewData, v).voted
  {
  }

  lemma EnterKeepsSigned(cfg: Config, log: Log, env: Env, i: nat, r: Replica, cause: Cause)
    requires IsEnv(cfg, env, i) && Signed(cfg, log, i, r)
    ensures Signed(cfg, log, i, EnterNewView(env, r, cause))
  {
    var r' := EnterNewView(env, r, cause);
    forall b | b in log && b.voter == i ensures b.kind in At(r'.core.viewData, b.view).voted {
      EnterKeepsFlags(env, r, cause, b.view);
    }
  }

  lemma EnterKeeps(cfg: Config, log: Log, env: Env, i: nat, r: Replica, cause: Cause)
    requires IsEnv(cfg, env, i) && Local(cfg, log, i, r)
    ensures Local(cfg, log, i, EnterNewView(env, r, cause))
  {
    EnterKeepsHeld(cfg, log, env, i, r, cause);
    EnterKeepsSigned(cfg, log, env, i, r, cause);
  }

  lemma TimerKeeps(cfg: Config, log: Log, env: Env, i: nat, r: Replica, view: nat)
    requires IsEnv(cfg, env, i) && Local(cfg, log, i, r)
    ensures Local(cfg, log, i, HandleTimer(env, r, view))
  {
    var r1 := r.(io := r.io.(timers := r.io.timers - {view}));
    EnterKeeps(cfg, log, env, i, r1.(core := r.core.(timeout := SaturatingDouble(r.core.timeout))), Timeout);
  }

  // ----- rules that cast no vote -----

  lemma HighestGood(cfg: Config, log: Log, msgs: NewViews, high: Option<QC>)
    requires NewViewsOk(cfg, log, msgs) && Highest(msgs, high)
    ensures GoodJustify(cfg, log, high)
  {
  }

  /** Storing and broadcasting a proposal with a genuine justify. */
  lemma ProposedKeeps(cfg: Config, log: Log, env: Env, i: nat, r: Replica,
                      leaf: Node, high: Option<QC>, tree: Tree, ex: Exec)
    requires IsEnv(cfg, env, i) && Local(cfg, log, i, r) && ProposalOk(cfg, log, (leaf, high))
    ensures var d := Vd(r.core, r.core.view);
            var d1 := if d.proposal.None? then d.(proposal := Some((leaf, high))) else d;
            Local(cfg, log, i,
                  Replica(PutVd(r.core.(tree := tree), r.core.view, d1.(sent := d1.sent + {Prepare})), ex,
                          r.io.(outbox := r.io.outbox + ToPeers(env, Proposal(r.core.view, leaf, high, i)))))
  {
    var d := Vd(r.core, r.core.view);
    var d1 := if d.proposal.None? then d.(proposal := Some((leaf, high))) else d;
    PutKeeps(cfg, log, r.core.viewData, r.core.view, d1.(sent := d1.sent + {Prepare}));
    assert SentOk(cfg, log, i, Proposal(r.core.view, leaf, high, i));
  }

  lemma ProposeKeeps(cfg: Config, log: Log, env: Env, i: nat, r: Replica, high: Option<QC>)
    requires IsEnv(cfg, env, i) && Local(cfg, log, i, r) && RuleOk(env, r, ProposeRule(high))
    ensures Local(cfg, log, i, LeaderPrepare(env, r, high))
  {
    if LeaderPrepare(env, r, high) != r {
      assert ViewOk(cfg, log, PrevView(r.core), At(r.core.viewData, PrevView(r.core)));
      HighestGood(cfg, log, Vd(r.core, PrevView(r.core)).newViews, high);
      var height := NextHeight(r.core.tree, high).value;
      var leaf := Node(JustifiedNode(high), env.blocks(height).cmd, height);
      var tree := r.core.tree[NodeHash(leaf) := leaf];
      ProposedKeeps(cfg, log, env, i, r, leaf, high, tree, MaybeKick(env, tree, r.exec, NodeHash(leaf)));
    }
  }

  lemma FormedGood(cfg: Config, log: Log, votes: Votes, kind: MsgType, view: nat, qc: QC)
    requires ValidConfig(cfg) && BucketOk(cfg, log, votes, kind, view)
    requires Formed(votes, kind, view, Quorum(cfg.n), Some(qc))
    ensures GoodQc(cfg, log, qc)
  {
    FormedVerifies(votes, kind, view, cfg.n, Quorum(cfg.n), qc);
  }

  lemma BroadcastKeeps(cfg: Config, log: Log, env: Env, i: nat, r: Replica, kind: MsgType, view: nat, qc: QC)
    requires IsEnv(cfg, env, i) && Local(cfg, log, i, r) && GoodQc(cfg, log, qc)
    ensures var d := Vd(r.core, view);
            Local(cfg, log, i, Replica(PutVd(r.core, view, d.(sent := d.sent + {kind})), r.exec,
                                       r.io.(outbox := r.io.outbox + ToPeers(env, PhaseQc(kind, view, qc, i)))))
  {
    var d := Vd(r.core, view);
    PutKeeps(cfg, log, r.core.viewData, view, d.(sent := d.sent + {kind}));
    assert SentOk(cfg, log, i, PhaseQc(kind, view, qc, i));
  }

  lemma FormedKeeps(cfg: Config, log: Log, env: Env, i: nat, r: Replica, kind: MsgType, qc: QC)
    requires IsEnv(cfg, env, i) && Local(cfg, log, i, r) && GoodQc(cfg, log, qc)
    requires VoteKind(kind) && qc.kind == kind && qc.view == r.core.view
    ensures Local(cfg, log, i, LeaderPhase(env, r, kind, Some(qc)))
  {
    if CanForm(env, r, kind) {
      var v, next, d := r.core.view, PhaseAfter(kind), Vd(r.core, r.core.view);
      var r1 := Replica(PutVd(r.core, v, d.(sent := d.sent + {next})), r.exec,
                        r.io.(outbox := r.io.outbox + ToPeers(env, PhaseQc(next, v, qc, i))));
      BroadcastKeeps(cfg, log, env, i, r, next, v, qc);
      StageKeeps(cfg, log, i, r1, next, v, qc);
      assert LeaderPhase(env, r, kind, Some(qc)) == r1.(core := Stage(r1.core, next, v, qc));
    }
  }

  lemma FormKeeps(cfg: Config, log: Log, env: Env, i: nat, r: Replica, kind: MsgType, formed: Option<QC>)
    requires IsEnv(cfg, env, i) && Local(cfg, log, i, r) && RuleOk(env, r, FormRule(kind, formed))
    ensures Local(cfg, log, i, LeaderPhase(env, r, kind, formed))
  {
    if CanForm(env, r, kind) && formed.Some? {
      assert ViewOk(cfg, log, r.core.view, At(r.core.viewData, r.core.view));
      FormedGood(cfg, log, Bucket(Vd(r.core, r.core.view).votes, kind), kind, r.core.view, formed.value);
      FormedKeeps(cfg, log, env, i, r, kind, formed.value);
    }
  }

  /** Deciding either only executes, or enters the next view from an otherwise unchanged replica. */
  lemma DecideShape(env: Env, r: Replica) returns (mid: Replica)
    requires ValidEnv(env)
    ensures ReplicaDecide(env, r) == mid || ReplicaDecide(env, r) == EnterNewView(env, mid, Decision)
    ensures mid.io == r.io && mid.core == r.core.(decided := mid.core.decided, timeout := mid.core.timeout)
    ensures mid.core.decided == r.core.decided
         || ((Decide, r.core.view) in r.core.staged
             && mid.core.decided == r.core.decided + {r.core.staged[(Decide, r.core.view)].node})
  {
    var v := r.core.view;
    if Decide !in Vd(r.core, v).seen || (Decide, v) !in r.core.staged {
      mid := r;
    } else {
      var h := r.core.staged[(Decide, v)].node;
      var c := r.core.(decided := r.core.decided + {h});
      var ex := TryExecute(env, c.tree, r.exec, h);
      mid := if ex.panicked then r.(core := c, exec := ex) else r.(core := c.(timeout := env.base), exec := ex);
    }
  }

  lemma DecidedKeeps(cfg: Config, log: Log, i: nat, r: Replica, mid: Replica)
    requires Local(cfg, log, i, r) && DecidedOk(cfg, log, mid.core.decided)
    requires mid.io == r.io && mid.core == r.core.(decided := mid.core.decided, timeout := mid.core.timeout)
    ensures Local(cfg, log, i, mid)
  {
  }

  lemma DecideKeeps(cfg: Config, log: Log, env: Env, i: nat, r: Replica)
    requires IsEnv(cfg, env, i) && Local(cfg, log, i, r)
    ensures Local(cfg, log, i, ReplicaDecide(env, r)) && ReplicaDecide(env, r).io.signed == r.io.signed
  {
    var mid := DecideShape(env, r);
    if mid.core.decided != r.core.decided {
      DecidedAdds(cfg, log, r.core.decided, r.core.staged[(Decide, r.core.view)]);
    }
    DecidedKeeps(cfg, log, i, r, mid);
    EnterKeeps(cfg, log, env, i, mid, Decision);
  }

  // ----- casting votes -----

  /** The voter's own data of the view: flag set, and as leader its own vote collected. */
  function Casted(env: Env, d: ViewData, kind: MsgType, v: nat, h: Hash): ViewData
    requires ValidEnv(env)
  {
    var d1 := d.(voted := d.voted + {kind});
    if Leader(env.n, v) == env.me
    then d1.(votes := AddVote(d.votes, kind, env.me, (h, Sig(env.me, kind, v, h))))
    else d1
  }

  lemma CastedOk(cfg: Config, log: Log, env: Env, i: nat, d: ViewData, kind: MsgType, v: nat, h: Hash)
    requires IsEnv(cfg, env, i) && ViewOk(cfg, log, v, d) && Ballot(i, kind, v, h) in log
    ensures ViewOk(cfg, log, v, Casted(env, d, kind, v, h))
  {
    AddVoteKeeps(cfg, log, v, d.(voted := d.voted + {kind}), kind, i, h, Sig(i, kind, v, h));
  }

  lemma CastShape(env: Env, r: Replica, kind: MsgType, h: Hash)
    requires ValidEnv(env)
    ensures var r', v := CastVote(env, r, kind, h), r.core.view;
            && r'.core == PutVd(r.core, v, Casted(env, Vd(r.core, v), kind, v, h))
            && forall e | e in r'.io.outbox ::
                 e in r.io.outbox || (e.to != env.me && e.msg == Vote(kind, v, h, env.me, Sig(env.me, kind, v, h)))
  {
  }

  lemma CastKeepsHeld(cfg: Config, log: Log, env: Env, i: nat, r: Replica, kind: MsgType, h: Hash)
    requires IsEnv(cfg, env, i) && Held(cfg, log, i, r)
    ensures Held(cfg, log + [Ballot(i, kind, r.core.view, h)], i, CastVote(env, r, kind, h))
  {
    var v := r.core.view;
    var log' := log + [Ballot(i, kind, v, h)];
    HeldGrows(cfg, log, log', i, r);
    CastShape(env, r, kind, h);
    assert ViewOk(cfg, log', v, At(r.core.viewData, v));
    CastedOk(cfg, log', env, i, Vd(r.core, v), kind, v, h);
    PutKeeps(cfg, log', r.core.viewData, v, Casted(env, Vd(r.core, v), kind, v, h));
    assert SentOk(cfg, log', i, Vote(kind, v, h, i, Sig(i, kind, v, h)));
  }

  lemma CastKeepsFlags(cfg: Config, log: Log, env: Env, i: nat, r: Replica, kind: MsgType, h: Hash)
    requires IsEnv(cfg, env, i) && BallotsOk(log, i, r) && VotedOk(log, i, r.core.view, r.core.viewData)
    ensures var r' := CastVote(env, r, kind, h);
            var log' := log + [Ballot(i, kind, r.core.view, h)];
            BallotsOk(log', i, r') && VotedOk(log', i, r'.core.view, r'.core.viewData)
  {
    var r' := CastVote(env, r, kind, h);
    forall b | b in log && b.voter == i ensures b.kind in At(r'.core.viewData, b.view).voted {
      assert b.kind in At(r.core.viewData, b.view).voted;
    }
  }

  /** An unused flag means an unused (phase, view). */
  lemma FlagClear(log: Log, i: nat, r: Replica, kind: MsgType)
    requires VotedOk(log, i, r.core.view, r.core.viewData) && kind !in Vd(r.core, r.core.view).voted
    ensures forall x | x in log && x.voter == i :: x.view <= r.core.view && (x.view == r.core.view ==> x.kind != kind)
  {
  }

  /** The lock held by the replica is the lock of the log. */
  lemma LockUnique(cfg: Config, log: Log, i: nat, locked: Option<QC>, w: nat, l: Hash)
    requires ValidConfig(cfg) && LogOk(cfg, log) && LockOk(cfg, log, i, locked) && Locked(log, i, w, l)
    ensures locked.Some? && locked.value.view == w && locked.value.node == l
  {
    var q := locked.value;
    OneBallotPerPhase(cfg, log, Ballot(i, Commit, q.view, q.node), Ballot(i, Commit, w, l));
  }

  /** SafeNode on the local tree implies the log's SafeNode rule. */
  lemma SafeNodeIsSafe(cfg: Config, log: Log, i: nat, r: Replica, leaf: Node, high: Option<QC>, w: nat, l: Hash)
    requires ValidConfig(cfg) && LogOk(cfg, log) && LockOk(cfg, log, i, r.core.lockedQc) && Locked(log, i, w, l)
    requires ProposalOk(cfg, log, (leaf, high)) && SafeNode(leaf, high, r.core.lockedQc, r.core.tree)
    ensures SafeFor(cfg, log, NodeHash(leaf), w, l)
  {
    LockUnique(cfg, log, i, r.core.lockedQc, w, l);
    if ExtendsFrom(leaf, l, r.core.tree) {
      ExtendsFromSound(leaf, l, r.core.tree);
    } else {
      GoodQcCertified(cfg, log, high.value);
    }
  }

  lemma PrepareVoteAllowed(cfg: Config, log: Log, env: Env, i: nat, r: Replica)
    requires IsEnv(cfg, env, i) && Correct(cfg, i) && LogOk(cfg, log) && Local(cfg, log, i, r)
    requires Vd(r.core, r.core.view).proposal.Some? && Prepare !in Vd(r.core, r.core.view).voted
    requires var p := Vd(r.core, r.core.view).proposal.value; SafeNode(p.0, p.1, r.core.lockedQc, r.core.tree)
    ensures EntryOk(cfg, log, Ballot(i, Prepare, r.core.view, NodeHash(Vd(r.core, r.core.view).proposal.value.0)))
  {
    var v := r.core.view;
    var (leaf, high) := Vd(r.core, v).proposal.value;
    assert ViewOk(cfg, log, v, At(r.core.viewData, v));
    FlagClear(log, i, r, Prepare);
    forall w, l | Locked(log, i, w, l) ensures SafeFor(cfg, log, NodeHash(leaf), w, l) {
      SafeNodeIsSafe(cfg, log, i, r, leaf, high, w, l);
    }
  }

  lemma PrepareSigned(cfg: Config, log: Log, i: nat, locked: Option<QC>, prepared: Option<QC>, b: Ballot)
    requires ValidConfig(cfg) && LockOk(cfg, log, i, locked) && PrepareOk(cfg, log, i, prepared) && b.kind == Prepare
    ensures LockOk(cfg, log + [b], i, locked) && PrepareOk(cfg, log + [b], i, prepared)
  {
  }

  lemma PhaseVoteAllowed(cfg: Config, log: Log, env: Env, i: nat, r: Replica, kind: MsgType)
    requires IsEnv(cfg, env, i) && Correct(cfg, i) && LogOk(cfg, log) && Local(cfg, log, i, r)
    requires kind in {PreCommit, Commit} && kind !in Vd(r.core, r.core.view).voted
    requires (kind, r.core.view) in r.core.staged
    ensures EntryOk(cfg, log, Ballot(i, kind, r.core.view, r.core.staged[(kind, r.core.view)].node))
  {
    GoodQcCertified(cfg, log, r.core.staged[(kind, r.core.view)]);
    FlagClear(log, i, r, kind);
  }

  /** Voting PRE-COMMIT moves the prepareQC, voting COMMIT moves the lock, to the staged certificate. */
  lemma PhaseSigned(cfg: Config, log: Log, i: nat, r: Replica, kind: MsgType, qc: QC)
    requires ValidConfig(cfg) && Signed(cfg, log, i, r) && kind in {PreCommit, Commit}
    requires GoodQc(cfg, log, qc) && CertKind(kind) == Some(qc.kind) && qc.view == r.core.view
    ensures var log' := log + [Ballot(i, kind, r.core.view, qc.node)];
            && LockOk(cfg, log', i, if kind == Commit then Some(qc) else r.core.lockedQc)
            && PrepareOk(cfg, log', i, if kind == PreCommit then Some(qc) else r.core.prepareQc)
  {
  }

  // ----- steps of a whole world -----

  lemma GiveUpKeeps(cfg: Config, log: Log, i: nat, r: Replica)
    requires ValidConfig(cfg) && Local(cfg, log, i, r)
    ensures var d := Vd(r.core, r.core.view);
            Local(cfg, log, i, r.(core := PutVd(r.core, r.core.view, d.(voted := d.voted + {Prepare}))))
  {
    var d := Vd(r.core, r.core.view);
    PutKeeps(cfg, log, r.core.viewData, r.core.view, d.(voted := d.voted + {Prepare}));
  }

  lemma PrepareVoteKeeps(cfg: Config, log: Log, env: Env, i: nat, r: Replica, h: Hash)
    requires IsEnv(cfg, env, i) && Local(cfg, log, i, r)
    ensures Local(cfg, log + [Ballot(i, Prepare, r.core.view, h)], i, CastVote(env, r, Prepare, h))
  {
    CastKeepsHeld(cfg, log, env, i, r, Prepare, h);
    CastKeepsFlags(cfg, log, env, i, r, Prepare, h);
    PrepareSigned(cfg, log, i, r.core.lockedQc, r.core.prepareQc, Ballot(i, Prepare, r.core.view, h));
  }

  lemma PrepareMove(cfg: Config, log: Log, env: Env, i: nat, r: Replica)
    requires IsEnv(cfg, env, i) && Correct(cfg, i) && LogOk(cfg, log) && Local(cfg, log, i, r)
    ensures MoveOk(cfg, log, i, r, ReplicaPrepare(env, r))
  {
    if ReplicaPrepare(env, r).io.signed == r.io.signed {
      GiveUpKeeps(cfg, log, i, r);
    } else {
      var h := NodeHash(Vd(r.core, r.core.view).proposal.value.0);
      PrepareVoteAllowed(cfg, log, env, i, r);
      PrepareVoteKeeps(cfg, log, env, i, r, h);
      assert CastOk(cfg, log, i, ReplicaPrepare(env, r), Ballot(i, Prepare, r.core.view, h));
    }
  }

  lemma PhaseMove(cfg: Config, log: Log, env: Env, i: nat, r: Replica, kind: MsgType)
    requires IsEnv(cfg, env, i) && Correct(cfg, i) && LogOk(cfg, log) && Local(cfg, log, i, r)
    requires kind in {PreCommit, Commit}
    ensures MoveOk(cfg, log, i, r, ReplicaPhase(env, r, kind))
  {
    if ReplicaPhase(env, r, kind) != r {
      var qc := r.core.staged[(kind, r.core.view)];
      var c := if kind == PreCommit then r.core.(prepareQc := Some(qc)) else r.core.(lockedQc := Some(qc));
      PhaseVoteAllowed(cfg, log, env, i, r, kind);
      CastKeepsHeld(cfg, log, env, i, r.(core := c), kind, qc.node);
      CastKeepsFlags(cfg, log, env, i, r.(core := c), kind, qc.node);
      PhaseSigned(cfg, log, i, r, kind, qc);
      assert CastOk(cfg, log, i, ReplicaPhase(env, r, kind), Ballot(i, kind, r.core.view, qc.node));
    }
  }

  lemma RuleMove(cfg: Config, log: Log, env: Env, i: nat, r: Replica, rule: Rule)
    requires IsEnv(cfg, env, i) && Correct(cfg, i) && LogOk(cfg, log) && Local(cfg, log, i, r)
    requires RuleOk(env, r, rule)
    ensures MoveOk(cfg, log, i, r, Fire(env, r, rule))
  {
    if !r.exec.panicked {
      match rule
      case PrepareRule => PrepareMove(cfg, log, env, i, r);
      case PhaseRule(kind) => PhaseMove(cfg, log, env, i, r, kind);
      case ProposeRule(high) => ProposeKeeps(cfg, log, env, i, r, high);
      case FormRule(kind, formed) => FormKeeps(cfg, log, env, i, r, kind, formed);
      case DecideRule => DecideKeeps(cfg, log, env, i, r);
      case _ =>
    }
  }

  lemma MessageMove(cfg: Config, log: Log, env: Env, i: nat, r: Replica, msg: Wire)
    requires IsEnv(cfg, env, i) && Local(cfg, log, i, r)
    requires Unforged(cfg, log, msg) && Claimant(msg) != i && Claimant(msg) < cfg.n
    ensures Local(cfg, log, i, HandleMsg(env, r, msg))
  {
    match msg
    case Hello(_) =>
    case Proposal(view, node, j, sender) => ProposalKeeps(cfg, log, env, i, r, view, node, j, sender);
    case PhaseQc(kind, view, cert, sender) => PhaseQcKeeps(cfg, log, env, i, r, kind, view, cert, sender);
    case Vote(kind, view, h, voter, sig) => VoteKeeps(cfg, log, env, i, r, kind, view, h, voter, sig);
    case NewViewMsg(view, j, sender) => NewViewKeeps(cfg, log, env, i, r, view, j, sender);
  }

  lemma EventMove(cfg: Config, log: Log, env: Env, i: nat, r: Replica, ev: Event)
    requires IsEnv(cfg, env, i) && Local(cfg, log, i, r) && EventOk(r, ev)
    requires ev.Deliver? ==> Unforged(cfg, log, ev.msg) && Claimant(ev.msg) != i && Claimant(ev.msg) < cfg.n
    ensures Local(cfg, log, i, Handle(env, r, ev)) && Handle(env, r, ev).io.signed == r.io.signed
  {
    match ev
    case Deliver(msg) => MessageMove(cfg, log, env, i, r, msg);
    case Timer(view) => TimerKeeps(cfg, log, env, i, r, view);
    case _ =>
  }

  lemma EventStep(sys: Sys, w: World, i: nat, ev: Event)
    requires ValidSys(sys) && Inv(sys, w) && i in w.reps && EventOk(w.reps[i], ev)
    requires ev.Deliver? ==> Deliverable(sys, w, i, ev.msg)
    ensures Inv(sys, Publish(w, i, Handle(EnvOf(sys, i), w.reps[i], ev)))
  {
    if ev.Deliver? { DeliveredGenuine(sys, w, i, ev.msg); }
    EventMove(sys.cfg, w.log, EnvOf(sys, i), i, w.reps[i], ev);
    AdoptQuiet(sys, w, i, Handle(EnvOf(sys, i), w.reps[i], ev));
  }

  lemma RuleStep(sys: Sys, w: World, i: nat, rule: Rule)
    requires ValidSys(sys) && Inv(sys, w) && i in w.reps && RuleOk(EnvOf(sys, i), w.reps[i], rule)
    ensures Inv(sys, Publish(w, i, Fire(EnvOf(sys, i), w.reps[i], rule)))
  {
    RuleMove(sys.cfg, w.log, EnvOf(sys, i), i, w.reps[i], rule);
    Adopt(sys, w, i, Fire(EnvOf(sys, i), w.reps[i], rule));
  }
}
