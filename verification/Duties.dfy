/** Nothing owed is forgotten: every ballot signed, every view left and every broadcast flag set
    has its message on the way, or its entry in the replica's own collection. */
module Duties {
  import opened Messages
  import opened Execution
  import opened Replicas

  /** The leader of the ballot's view has it: by message, or in its own bucket. */
  ghost predicate BallotSent(env: Env, r: Replica, b: Ballot)
    requires ValidEnv(env)
  {
    var sig := Sig(b.voter, b.kind, b.view, b.node);
    var bucket := Bucket(At(r.core.viewData, b.view).votes, b.kind);
    && b.voter == env.me && b.view <= r.core.view && b.kind in At(r.core.viewData, b.view).voted
    && if Leader(env.n, b.view) == env.me then env.me in bucket && bucket[env.me] == (b.node, sig)
       else Envelope(Leader(env.n, b.view), Vote(b.kind, b.view, b.node, env.me, sig)) in r.io.outbox
  }

  /** The leader of view u + 1 was told that view u is over. */
  ghost predicate LeftSent(env: Env, r: Replica, u: nat)
    requires ValidEnv(env)
  {
    if Leader(env.n, u + 1) == env.me then env.me in At(r.core.viewData, u).newViews
    else exists j :: Envelope(Leader(env.n, u + 1), NewViewMsg(u, j, env.me)) in r.io.outbox
  }

  /** A broadcast of this type and view went to every peer. */
  ghost predicate BroadcastSent(env: Env, outbox: set<Envelope>, v: nat, k: MsgType) {
    if k == Prepare then exists node, j :: ToPeers(env, Proposal(v, node, j, env.me)) <= outbox
    else exists qc :: ToPeers(env, PhaseQc(k, v, qc, env.me)) <= outbox
  }

  ghost predicate DutiesOk(env: Env, r: Replica)
    requires ValidEnv(env)
  {
    && (forall b | b in r.io.signed :: BallotSent(env, r, b))
    && (forall u: nat | u < r.core.view :: LeftSent(env, r, u))
    && (forall v: nat, k | k in At(r.core.viewData, v).sent :: BroadcastSent(env, r.io.outbox, v, k))
  }

  /** Outbox, flags and collections only grow, and nothing new is owed. */
  ghost predicate Grown(env: Env, d: ViewData, d': ViewData) {
    && d.voted <= d'.voted && d'.sent == d.sent
    && (env.me in d.newViews ==> env.me in d'.newViews)
    && forall k | env.me in Bucket(d.votes, k) ::
         env.me in Bucket(d'.votes, k) && Bucket(d'.votes, k)[env.me] == Bucket(d.votes, k)[env.me]
  }

  ghost predicate OwesNothingNew(env: Env, r: Replica, r': Replica) {
    && r'.core.view == r.core.view && r'.io.signed == r.io.signed && r'.io.outbox == r.io.outbox
    && forall v: nat :: Grown(env, At(r.core.viewData, v), At(r'.core.viewData, v))
  }

  lemma GrownKeeps(env: Env, r: Replica, r': Replica)
    requires ValidEnv(env) && DutiesOk(env, r) && OwesNothingNew(env, r, r')
    ensures DutiesOk(env, r')
  {
    forall b | b in r'.io.signed ensures BallotSent(env, r', b) {
      assert BallotSent(env, r, b) && Grown(env, At(r.core.viewData, b.view), At(r'.core.viewData, b.view));
    }
    forall u: nat | u < r'.core.view ensures LeftSent(env, r', u) {
      assert LeftSent(env, r, u) && Grown(env, At(r.core.viewData, u), At(r'.core.viewData, u));
    }
    forall v: nat, k | k in At(r'.core.viewData, v).sent ensures BroadcastSent(env, r'.io.outbox, v, k) {
      assert Grown(env, At(r.core.viewData, v), At(r'.core.viewData, v));
    }
  }

  /** Data of one view grew, the rest of the bookkeeping is the same. */
  lemma PutOwes(env: Env, r: Replica, r': Replica, v: nat, d: ViewData)
    requires r'.core.view == r.core.view && r'.io == r.io
    requires r'.core.viewData == r.core.viewData || r'.core.viewData == Put(r.core.viewData, v, d)
    requires Grown(env, At(r.core.viewData, v), d)
    ensures OwesNothingNew(env, r, r')
  {
    forall u: nat ensures Grown(env, At(r.core.viewData, u), At(r'.core.viewData, u)) {
      assert At(r'.core.viewData, u) == At(r.core.viewData, u) || u == v;
    }
  }

  lemma MessageOwes(env: Env, r: Replica, msg: Wire)
    requires ValidEnv(env)
    ensures OwesNothingNew(env, r, HandleMsg(env, r, msg))
  {
    var r' := HandleMsg(env, r, msg);
    if msg.Hello? || r' == r {
      PutOwes(env, r, r', 0, At(r.core.viewData, 0));
    } else {
      var d := At(r.core.viewData, msg.view);
      match msg
      case Hello(_) =>
      case Proposal(view, node, j, _) => PutOwes(env, r, r', view, d.(proposal := Some((node, j))));
      case PhaseQc(kind, view, _, _) => PutOwes(env, r, r', view, d.(seen := d.seen + {kind}));
      case Vote(kind, view, h, voter, sig) =>
        PutOwes(env, r, r', view, d.(votes := AddVote(d.votes, kind, voter, (h, sig))));
      case NewViewMsg(view, j, sender) => PutOwes(env, r, r', view, d.(newViews := d.newViews[sender := j]));
    }
  }

  lemma EnterDuties(env: Env, r: Replica, cause: Cause)
    requires ValidEnv(env) && DutiesOk(env, r)
    ensures DutiesOk(env, EnterNewView(env, r, cause))
  {
    var r' := EnterNewView(env, r, cause);
    forall b | b in r'.io.signed ensures BallotSent(env, r', b) {
      assert BallotSent(env, r, b);
    }
    forall u: nat | u < r'.core.view ensures LeftSent(env, r', u) {
      if u < r.core.view { assert LeftSent(env, r, u); }
    }
    forall v: nat, k | k in At(r'.core.viewData, v).sent ensures BroadcastSent(env, r'.io.outbox, v, k) {
      assert BroadcastSent(env, r.io.outbox, v, k);
    }
  }

  lemma EventDuties(env: Env, r: Replica, ev: Event)
    requires ValidEnv(env) && DutiesOk(env, r) && EventOk(r, ev)
    ensures DutiesOk(env, Handle(env, r, ev))
  {
    match ev
    case Deliver(msg) =>
      MessageOwes(env, r, msg);
      GrownKeeps(env, r, HandleMsg(env, r, msg));
    case Timer(view) =>
      var r1 := r.(io := r.io.(timers := r.io.timers - {view}));
      var r2 := r1.(core := r.core.(timeout := SaturatingDouble(r.core.timeout)));
      GrownKeeps(env, r, r1);
      GrownKeeps(env, r, r2);
      EnterDuties(env, r2, Timeout);
    case _ => GrownKeeps(env, r, Handle(env, r, ev));
  }

  // ----- broadcasts -----

  predicate IsBroadcast(env: Env, msg: Wire, v: nat, k: MsgType) {
    if k == Prepare then msg.Proposal? && msg.view == v && msg.sender == env.me
    else msg.PhaseQc? && msg.kind == k && msg.view == v && msg.sender == env.me
  }

  /** One more broadcast, its flag, and otherwise only growth. */
  lemma BroadcastKeeps(env: Env, r: Replica, r': Replica, v: nat, k: MsgType, msg: Wire)
    requires ValidEnv(env) && DutiesOk(env, r)
    requires IsBroadcast(env, msg, v, k)
    requires r'.core.view == r.core.view && r'.io.signed == r.io.signed
    requires r'.io.outbox == r.io.outbox + ToPeers(env, msg)
    requires forall u: nat :: var d, d' := At(r.core.viewData, u), At(r'.core.viewData, u);
               d'.sent == (if u == v then d.sent + {k} else d.sent) && Grown(env, d.(sent := d'.sent), d')
    ensures DutiesOk(env, r')
  {
    var m, m' := r.core.viewData, r'.core.viewData;
    forall b | b in r'.io.signed ensures BallotSent(env, r', b) {
      assert BallotSent(env, r, b) && Grown(env, At(m, b.view).(sent := At(m', b.view).sent), At(m', b.view));
    }
    forall u: nat | u < r'.core.view ensures LeftSent(env, r', u) {
      assert LeftSent(env, r, u) && Grown(env, At(m, u).(sent := At(m', u).sent), At(m', u));
    }
    forall u: nat, x | x in At(m', u).sent ensures BroadcastSent(env, r'.io.outbox, u, x) {
      if x in At(m, u).sent {
        assert BroadcastSent(env, r.io.outbox, u, x);
      } else {
        assert ToPeers(env, msg) <= r'.io.outbox;
        match msg {
          case Proposal(_, node, j, _) => assert msg == Proposal(u, node, j, env.me);
          case PhaseQc(_, _, qc, _) => assert msg == PhaseQc(x, u, qc, env.me);
          case _ =>
        }
      }
    }
  }

  lemma ProposeViews(env: Env, r: Replica, high: Option<QC>, u: nat)
    requires ValidEnv(env) && LeaderPrepare(env, r, high) != r
    ensures var d, d' := At(r.core.viewData, u), At(LeaderPrepare(env, r, high).core.viewData, u);
            && d'.sent == (if u == r.core.view then d.sent + {Prepare} else d.sent)
            && d'.voted == d.voted && d'.newViews == d.newViews && d'.votes == d.votes
  {
  }

  lemma ProposeDuties(env: Env, r: Replica, high: Option<QC>)
    requires ValidEnv(env) && DutiesOk(env, r)
    ensures DutiesOk(env, LeaderPrepare(env, r, high))
  {
    var r' := LeaderPrepare(env, r, high);
    if r' != r {
      var height := NextHeight(r.core.tree, high).value;
      var leaf := Node(JustifiedNode(high), env.blocks(height).cmd, height);
      forall u: nat
        ensures var d, d' := At(r.core.viewData, u), At(r'.core.viewData, u);
          && d'.sent == (if u == r.core.view then d.sent + {Prepare} else d.sent) && Grown(env, d.(sent := d'.sent), d')
      {
        ProposeViews(env, r, high, u);
      }
      BroadcastKeeps(env, r, r', r.core.view, Prepare, Proposal(r.core.view, leaf, high, env.me));
    }
  }

  lemma FormViews(env: Env, r: Replica, kind: MsgType, qc: QC, u: nat)
    requires ValidEnv(env) && CanForm(env, r, kind)
    ensures var d, d' := At(r.core.viewData, u), At(LeaderPhase(env, r, kind, Some(qc)).core.viewData, u);
            && d'.sent == (if u == r.core.view then d.sent + {PhaseAfter(kind)} else d.sent)
            && d'.voted == d.voted && d'.newViews == d.newViews && d'.votes == d.votes
  {
  }

  lemma FormDuties(env: Env, r: Replica, kind: MsgType, formed: Option<QC>)
    requires ValidEnv(env) && DutiesOk(env, r)
    ensures DutiesOk(env, LeaderPhase(env, r, kind, formed))
  {
    if CanForm(env, r, kind) && formed.Some? {
      var r' := LeaderPhase(env, r, kind, formed);
      forall u: nat
        ensures var d, d' := At(r.core.viewData, u), At(r'.core.viewData, u);
          && d'.sent == (if u == r.core.view then d.sent + {PhaseAfter(kind)} else d.sent)
          && Grown(env, d.(sent := d'.sent), d')
      {
        FormViews(env, r, kind, formed.value, u);
      }
      BroadcastKeeps(env, r, r', r.core.view, PhaseAfter(kind),
                     PhaseQc(PhaseAfter(kind), r.core.view, formed.value, env.me));
    }
  }

  // ----- votes -----

  lemma CastBallots(env: Env, r: Replica, kind: MsgType, h: Hash, b: Ballot)
    requires ValidEnv(env) && kind !in At(r.core.viewData, r.core.view).voted
    requires BallotSent(env, r, b) || b == Ballot(env.me, kind, r.core.view, h)
    ensures BallotSent(env, CastVote(env, r, kind, h), b)
  {
  }

  lemma CastRest(env: Env, r: Replica, kind: MsgType, h: Hash)
    requires ValidEnv(env)
    ensures var r' := CastVote(env, r, kind, h);
            && r'.core.view == r.core.view && r.io.outbox <= r'.io.outbox
            && forall v: nat :: var d, d' := At(r.core.viewData, v), At(r'.core.viewData, v);
                 d'.newViews == d.newViews && d'.sent == d.sent
  {
  }

  lemma CastDuties(env: Env, r: Replica, kind: MsgType, h: Hash)
    requires ValidEnv(env) && DutiesOk(env, r) && kind !in At(r.core.viewData, r.core.view).voted
    ensures DutiesOk(env, CastVote(env, r, kind, h))
  {
    var r' := CastVote(env, r, kind, h);
    CastRest(env, r, kind, h);
    forall b | b in r'.io.signed ensures BallotSent(env, r', b) {
      CastBallots(env, r, kind, h, b);
    }
    forall u: nat | u < r'.core.view ensures LeftSent(env, r', u) {
      assert LeftSent(env, r, u);
    }
    forall v: nat, k | k in At(r'.core.viewData, v).sent ensures BroadcastSent(env, r'.io.outbox, v, k) {
      assert BroadcastSent(env, r.io.outbox, v, k);
    }
  }

  lemma PrepareDuties(env: Env, r: Replica)
    requires ValidEnv(env) && DutiesOk(env, r)
    ensures DutiesOk(env, ReplicaPrepare(env, r))
  {
    var r' := ReplicaPrepare(env, r);
    if r'.io.signed == r.io.signed {
      GrownKeeps(env, r, r');
    } else {
      CastDuties(env, r, Prepare, NodeHash(Vd(r.core, r.core.view).proposal.value.0));
    }
  }

  lemma PhaseDuties(env: Env, r: Replica, kind: MsgType)
    requires ValidEnv(env) && DutiesOk(env, r)
    ensures DutiesOk(env, ReplicaPhase(env, r, kind))
  {
    if ReplicaPhase(env, r, kind) != r {
      var qc := r.core.staged[(kind, r.core.view)];
      var r1 := r.(core := if kind == PreCommit then r.core.(prepareQc := Some(qc)) else r.core.(lockedQc := Some(qc)));
      GrownKeeps(env, r, r1);
      CastDuties(env, r1, kind, qc.node);
    }
  }

  lemma DecideDuties(env: Env, r: Replica)
    requires ValidEnv(env) && DutiesOk(env, r)
    ensures DutiesOk(env, ReplicaDecide(env, r))
  {
    var v := r.core.view;
    if ReplicaDecide(env, r) != r {
      var h := r.core.staged[(Decide, v)].node;
      var c := r.core.(decided := r.core.decided + {h});
      var ex := TryExecute(env, c.tree, r.exec, h);
      var mid := r.(core := c.(timeout := env.base), exec := ex);
      GrownKeeps(env, r, mid);
      GrownKeeps(env, r, r.(core := c, exec := ex));
      EnterDuties(env, mid, Decision);
    }
  }

  lemma RuleDuties(env: Env, r: Replica, rule: Rule)
    requires ValidEnv(env) && DutiesOk(env, r)
    ensures DutiesOk(env, Fire(env, r, rule))
  {
    if !r.exec.panicked {
      match rule
      case ProposeRule(high) => ProposeDuties(env, r, high);
      case PrepareRule => PrepareDuties(env, r);
      case FormRule(kind, formed) => FormDuties(env, r, kind, formed);
      case PhaseRule(kind) => PhaseDuties(env, r, kind);
      case DecideRule => DecideDuties(env, r);
      case _ => GrownKeeps(env, r, Fire(env, r, rule));
    }
  }
}
