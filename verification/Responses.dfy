/** Nothing is left unanswered: what one pass over the rules (consensus/mod.rs, try_advance) makes
    of what the replica knows in its view, and that it stops only when no rule is left to fire. */
module Responses {
  import opened Messages
  import opened Quorums
  import opened Certificates
  import opened Ancestry
  import opened Execution
  import opened Replicas
  import opened Pacemaker
  import opened Progress
  import opened Halting
  import opened Receipts

  // ----- what is owed in a view -----

  /** The proposal has a validation result. */
  predicate Judged(results: set<Hash>, d: ViewData) {
    d.proposal.Some? && NodeHash(d.proposal.value.0) in results
  }

  /** n-f votes of this phase are for one node. */
  ghost predicate HasQuorum(n: nat, d: ViewData, kind: MsgType) {
    exists h :: |VotesFor(Bucket(d.votes, kind), h)| >= Quorum(n)
  }

  /** The leader can build on this certificate: its node is known and the workload has the next block. */
  predicate CanBuildOn(env: Env, tree: Tree, high: Option<QC>) {
    if high.None? then env.numBlocks > 0
    else high.value.node in tree && tree[high.value.node].height + 1 < env.numBlocks
  }

  /** A proposal is due and cannot be built, or none is due. */
  ghost predicate ProposalAnswered(env: Env, tree: Tree, reports: NewViews, sent: set<MsgType>) {
    || Prepare in sent || |reports| < Quorum(env.n)
    || exists high :: Highest(reports, high) && !CanBuildOn(env, tree, high)
  }

  /** Every rule of the view fired that could: validated proposals are voted on or given up,
      received certificates are voted for, quorums are broadcast, and a DECIDE has ended the view. */
  ghost predicate ViewAnswered(n: nat, leads: bool, results: set<Hash>, d: ViewData) {
    && (Judged(results, d) ==> Prepare in d.voted)
    && (PreCommit in d.seen ==> PreCommit in d.voted)
    && (Commit in d.seen ==> Commit in d.voted)
    && Decide !in d.seen
    && (leads && HasQuorum(n, d, Prepare) ==> PreCommit in d.sent)
    && (leads && HasQuorum(n, d, PreCommit) ==> Commit in d.sent)
    && (leads && HasQuorum(n, d, Commit) ==> Decide in d.sent)
  }

  ghost predicate ViewDone(env: Env, r: Replica)
    requires ValidEnv(env)
  {
    ViewAnswered(env.n, Leader(env.n, r.core.view) == env.me, r.exec.validation.Keys,
                 At(r.core.viewData, r.core.view))
  }

  ghost predicate ProposalDone(env: Env, r: Replica)
    requires ValidEnv(env)
  {
    && r.core.view >= 1
    && (Leader(env.n, r.core.view) == env.me ==>
          ProposalAnswered(env, r.core.tree, At(r.core.viewData, r.core.view - 1).newViews,
                           At(r.core.viewData, r.core.view).sent))
  }

  ghost predicate Answered(env: Env, r: Replica)
    requires ValidEnv(env)
  {
    ViewDone(env, r) && ProposalDone(env, r)
  }

  // ----- what each rule does to the data of the current view -----

  ghost predicate PrepareMove(results: set<Hash>, d: ViewData, d': ViewData) {
    && d' == d.(voted := d'.voted, votes := d'.votes) && d.voted <= d'.voted
    && (Judged(results, d) ==> Prepare in d'.voted)
    && Bucket(d'.votes, PreCommit) == Bucket(d.votes, PreCommit) && Bucket(d'.votes, Commit) == Bucket(d.votes, Commit)
  }

  ghost predicate FormMove(n: nat, leads: bool, kind: MsgType, next: MsgType, d: ViewData, d': ViewData) {
    && d' == d.(seen := d'.seen, sent := d'.sent) && d.sent <= d'.sent <= d.sent + {next}
    && d.seen <= d'.seen <= d.seen + {next}
    && (leads && HasQuorum(n, d, kind) && next !in d.sent ==> next in d'.sent && next in d'.seen)
  }

  ghost predicate PhaseMove(kind: MsgType, d: ViewData, d': ViewData) {
    && d' == d.(voted := d'.voted, votes := d'.votes) && d.voted <= d'.voted
    && (kind in d.seen ==> kind in d'.voted)
    && forall k | k != kind :: Bucket(d'.votes, k) == Bucket(d.votes, k)
  }

  /** Only the data of the current view changed. */
  ghost predicate InView(r: Replica, r': Replica) {
    && r'.core.view == r.core.view && r'.core.tree == r.core.tree && r'.exec == r.exec
    && forall u: nat | u != r.core.view :: At(r'.core.viewData, u) == At(r.core.viewData, u)
  }

  /** A vote is signed once, flagged, and handed to the leader of the view: by message, or by hand. */
  lemma CastLaw(env: Env, r: Replica, kind: MsgType, h: Hash)
    requires ValidEnv(env)
    ensures var r' := CastVote(env, r, kind, h);
            var v, me, leader := r.core.view, env.me, Leader(env.n, r.core.view);
            var sig := Sig(me, kind, v, h);
            var d, d' := At(r.core.viewData, v), At(r'.core.viewData, v);
            && InView(r, r') && d' == d.(voted := d.voted + {kind}, votes := d'.votes)
            && r'.io.signed == r.io.signed + [Ballot(me, kind, v, h)]
            && (forall k | k != kind :: Bucket(d'.votes, k) == Bucket(d.votes, k))
            && if leader == me then
                 Bucket(d'.votes, kind) == Bucket(d.votes, kind)[me := (h, sig)] && r'.io.outbox == r.io.outbox
               else
                 d'.votes == d.votes && r'.io.outbox == r.io.outbox + {Envelope(leader, Vote(kind, v, h, me, sig))}
  {
  }

  /** A judged, unvoted proposal gets its ballot exactly when its result is true and SafeNode holds;
      otherwise the vote is given up. */
  lemma PrepareLaw(env: Env, r: Replica)
    requires ValidEnv(env)
    ensures var r' := ReplicaPrepare(env, r);
            var v, d := r.core.view, At(r.core.viewData, r.core.view);
            if !Judged(r.exec.validation.Keys, d) || Prepare in d.voted then r' == r
            else
              var (leaf, high) := d.proposal.value;
              if r.exec.validation[NodeHash(leaf)] && SafeNode(leaf, high, r.core.lockedQc, r.core.tree)
              then r' == CastVote(env, r, Prepare, NodeHash(leaf))
              else
                && r' == r.(core := r.core.(viewData := r'.core.viewData))
                && OneView(r.core, r'.core, v, d.(voted := d.voted + {Prepare}))
  {
  }

  lemma PrepareMoves(env: Env, r: Replica)
    requires ValidEnv(env)
    ensures var r' := ReplicaPrepare(env, r);
            && InView(r, r')
            && PrepareMove(r.exec.validation.Keys, At(r.core.viewData, r.core.view), At(r'.core.viewData, r.core.view))
  {
    var d := At(r.core.viewData, r.core.view);
    PrepareLaw(env, r);
    if Judged(r.exec.validation.Keys, d) { CastLaw(env, r, Prepare, NodeHash(d.proposal.value.0)); }
  }

  lemma FormMoves(env: Env, r: Replica, kind: MsgType, formed: Option<QC>)
    requires ValidEnv(env) && RuleOk(env, r, FormRule(kind, formed))
    ensures var r' := LeaderPhase(env, r, kind, formed);
            && InView(r, r')
            && FormMove(env.n, Leader(env.n, r.core.view) == env.me, kind, PhaseAfter(kind),
                        At(r.core.viewData, r.core.view), At(r'.core.viewData, r.core.view))
  {
  }

  lemma PhaseMoves(env: Env, r: Replica, kind: MsgType)
    requires ValidEnv(env) && ReceiptsOk(r.core)
    ensures var r' := ReplicaPhase(env, r, kind);
            InView(r, r') && PhaseMove(kind, At(r.core.viewData, r.core.view), At(r'.core.viewData, r.core.view))
  {
    var r' := ReplicaPhase(env, r, kind);
    if r' != r {
      var qc := r.core.staged[(kind, r.core.view)];
      var c := if kind == PreCommit then r.core.(prepareQc := Some(qc)) else r.core.(lockedQc := Some(qc));
      CastLaw(env, r.(core := c), kind, qc.node);
    }
  }

  /** A DECIDE adds its node to the decided ones, executes towards it and, unless that aborts, ends
      the view with the timeout back at its base. Without one nothing happens. */
  lemma DecideLaw(env: Env, r: Replica)
    requires ValidEnv(env) && ReceiptsOk(r.core)
    ensures var r', v := ReplicaDecide(env, r), r.core.view;
            if Decide !in At(r.core.viewData, v).seen then r' == r
            else
              var h := r.core.staged[(Decide, v)].node;
              && r'.core.decided == r.core.decided + {h} && r'.exec == TryExecute(env, r.core.tree, r.exec, h)
              && (r'.exec.panicked || (r'.core.view == v + 1 && r'.core.timeout == env.base && v + 1 in r'.io.timers
                                       && r'.io.entered == r.io.entered + [Decision]))
  {
  }

  /** On the certificate of the phase before, a vote for its node; the certificate of PRE-COMMIT is
      kept as prepareQC, that of COMMIT as the lock. */
  lemma CertVoteLaw(env: Env, r: Replica, kind: MsgType)
    requires ValidEnv(env) && ReceiptsOk(r.core) && (kind == PreCommit || kind == Commit)
    ensures var r', v, d := ReplicaPhase(env, r, kind), r.core.view, At(r.core.viewData, r.core.view);
            if kind !in d.seen || kind in d.voted then r' == r
            else
              var cert := r.core.staged[(kind, v)];
              var c := if kind == Commit then r.core.(lockedQc := Some(cert)) else r.core.(prepareQc := Some(cert));
              r' == CastVote(env, r.(core := c), kind, cert.node)
  {
  }

  /** A leader with n-f votes of a phase for one node broadcasts their certificate as the next phase
      and takes it as received. Without them, or a second time, nothing happens. */
  lemma FormLaw(env: Env, r: Replica, kind: MsgType, next: MsgType, formed: Option<QC>)
    requires ValidEnv(env) && RuleOk(env, r, FormRule(kind, formed)) && CarriesPhase(next, kind)
    ensures var r', v, d := LeaderPhase(env, r, kind, formed), r.core.view, At(r.core.viewData, r.core.view);
            if Leader(env.n, v) != env.me || next in d.sent || !HasQuorum(env.n, d, kind) then r' == r
            else
              && formed.Some? && formed.value.kind == kind && formed.value.view == v
              && |VotesFor(Bucket(d.votes, kind), formed.value.node)| >= Quorum(env.n)
              && OneView(r.core, r'.core, v, d.(sent := d.sent + {next}, seen := d.seen + {next}))
              && (next !in d.seen ==> r'.core.staged == r.core.staged[(next, v) := formed.value])
              && r'.io == r.io.(outbox := r.io.outbox + ToPeers(env, PhaseQc(next, v, formed.value, env.me)))
              && r'.exec == r.exec && r'.core.tree == r.core.tree && r'.core.view == v
  {
    if formed.Some? && CanForm(env, r, kind) {
      var d := At(r.core.viewData, r.core.view);
      assert |VotesFor(Bucket(d.votes, kind), formed.value.node)| >= Quorum(env.n);
    }
  }

  /** A leader that is due to propose does so on the highest report, when it can build on it. */
  lemma ProposeMoves(env: Env, r: Replica, high: Option<QC>)
    requires ValidEnv(env) && RuleOk(env, r, ProposeRule(high)) && r.core.view >= 1
    ensures var r' := LeaderPrepare(env, r, high); r'.core.view == r.core.view && ProposalDone(env, r')
  {
    var r', v := LeaderPrepare(env, r, high), r.core.view;
    if Leader(env.n, v) == env.me && Prepare !in At(r'.core.viewData, v).sent {
      assert !CanPropose(env, r) || !CanBuildOn(env, r.core.tree, high);
    }
  }

  // ----- a whole pass -----

  /** The moves of a pass, one after the other, leave nothing unanswered unless they leave a DECIDE. */
  lemma MovesAnswer(n: nat, leads: bool, results: set<Hash>, d1: ViewData, d2: ViewData, d3: ViewData,
                    d4: ViewData, d5: ViewData, d6: ViewData, d7: ViewData)
    requires PrepareMove(results, d1, d2) && FormMove(n, leads, Prepare, PreCommit, d2, d3)
    requires PhaseMove(PreCommit, d3, d4) && FormMove(n, leads, PreCommit, Commit, d4, d5)
    requires PhaseMove(Commit, d5, d6) && FormMove(n, leads, Commit, Decide, d6, d7)
    requires Decide !in d7.seen
    ensures ViewAnswered(n, leads, results, d7)
    ensures d7.proposal == d1.proposal && d1.sent - {PreCommit, Commit, Decide} == d7.sent - {PreCommit, Commit, Decide}
  {
    assert HasQuorum(n, d7, Prepare) ==> HasQuorum(n, d2, Prepare);
    assert HasQuorum(n, d7, PreCommit) ==> HasQuorum(n, d4, PreCommit);
    assert HasQuorum(n, d7, Commit) ==> HasQuorum(n, d6, Commit);
  }

  lemma {:induction false} AbortStays(env: Env, r: Replica, rules: seq<Rule>, k: nat)
    requires ValidEnv(env) && k <= |rules| && FireAll(env, r, rules[..k]).exec.panicked
    ensures FireAll(env, r, rules).exec.panicked
    decreases |rules|
  {
    if k == |rules| {
      assert rules[..k] == rules;
    } else {
      assert rules[..|rules| - 1][..k] == rules[..k];
      AbortStays(env, r, rules[..|rules| - 1], k);
    }
  }

  /** The replica before rule k of the pass, still running and with every receipt staged. */
  lemma BeforeRule(env: Env, r: Replica, rules: seq<Rule>, k: nat)
    requires ValidEnv(env) && env.base <= U64_MAX && PaceOk(env, r) && Awake(r)
    requires RulesOk(env, r, rules) && k < |rules| && !FireAll(env, r, rules).exec.panicked
    ensures var s := FireAll(env, r, rules[..k]);
            && !s.exec.panicked && ReceiptsOk(s.core) && s.core.view >= r.core.view && RuleOk(env, s, rules[k])
            && FireAll(env, r, rules[..k + 1]) == Fire(env, s, rules[k])
  {
    if FireAll(env, r, rules[..k]).exec.panicked { AbortStays(env, r, rules, k); }
    RulesPace(env, r, rules[..k]);
    RuleOkAt(env, r, rules, k);
    FireNext(env, r, rules, k);
  }

  lemma InViewTransitive(a: Replica, b: Replica, c: Replica)
    requires InView(a, b) && InView(b, c)
    ensures InView(a, c)
  {
  }

  /** The states of a pass, from after the proposal rule to after the last certificate rule. */
  ghost predicate Middle(env: Env, s1: Replica, s2: Replica, s3: Replica, s4: Replica, s5: Replica, s6: Replica,
                         s7: Replica, f2: Option<QC>, f4: Option<QC>, f6: Option<QC>)
    requires ValidEnv(env)
  {
    && s2 == ReplicaPrepare(env, s1)
    && s3 == LeaderPhase(env, s2, Prepare, f2) && RuleOk(env, s2, FormRule(Prepare, f2))
    && s4 == ReplicaPhase(env, s3, PreCommit) && ReceiptsOk(s3.core)
    && s5 == LeaderPhase(env, s4, PreCommit, f4) && RuleOk(env, s4, FormRule(PreCommit, f4))
    && s6 == ReplicaPhase(env, s5, Commit) && ReceiptsOk(s5.core)
    && s7 == LeaderPhase(env, s6, Commit, f6) && RuleOk(env, s6, FormRule(Commit, f6))
  }

  lemma MiddleInView(env: Env, s1: Replica, s2: Replica, s3: Replica, s4: Replica, s5: Replica, s6: Replica,
                     s7: Replica, f2: Option<QC>, f4: Option<QC>, f6: Option<QC>)
    requires ValidEnv(env) && Middle(env, s1, s2, s3, s4, s5, s6, s7, f2, f4, f6)
    ensures InView(s1, s2) && InView(s1, s3) && InView(s1, s4) && InView(s1, s5) && InView(s1, s6) && InView(s1, s7)
  {
    PrepareMoves(env, s1);
    FormMoves(env, s2, Prepare, f2);
    InViewTransitive(s1, s2, s3);
    PhaseMoves(env, s3, PreCommit);
    InViewTransitive(s1, s3, s4);
    FormMoves(env, s4, PreCommit, f4);
    InViewTransitive(s1, s4, s5);
    PhaseMoves(env, s5, Commit);
    InViewTransitive(s1, s5, s6);
    FormMoves(env, s6, Commit, f6);
    InViewTransitive(s1, s6, s7);
  }

  lemma MiddleAnswers(env: Env, s1: Replica, s2: Replica, s3: Replica, s4: Replica, s5: Replica, s6: Replica,
                      s7: Replica, f2: Option<QC>, f4: Option<QC>, f6: Option<QC>)
    requires ValidEnv(env) && Middle(env, s1, s2, s3, s4, s5, s6, s7, f2, f4, f6)
    ensures InView(s1, s7)
    ensures var v := s1.core.view;
            var d, d' := At(s1.core.viewData, v), At(s7.core.viewData, v);
            Decide !in d'.seen ==>
              && ViewAnswered(env.n, Leader(env.n, v) == env.me, s7.exec.validation.Keys, d')
              && (Prepare in d.sent ==> Prepare in d'.sent)
  {
    var v := s1.core.view;
    var leads, results := Leader(env.n, v) == env.me, s1.exec.validation.Keys;
    MiddleInView(env, s1, s2, s3, s4, s5, s6, s7, f2, f4, f6);
    PrepareMoves(env, s1);
    FormMoves(env, s2, Prepare, f2);
    PhaseMoves(env, s3, PreCommit);
    FormMoves(env, s4, PreCommit, f4);
    PhaseMoves(env, s5, Commit);
    FormMoves(env, s6, Commit, f6);
    if Decide !in At(s7.core.viewData, v).seen {
      MovesAnswer(env.n, leads, results, At(s1.core.viewData, v), At(s2.core.viewData, v), At(s3.core.viewData, v),
                  At(s4.core.viewData, v), At(s5.core.viewData, v), At(s6.core.viewData, v), At(s7.core.viewData, v));
    }
  }

  /** A pass that can start from `r` and does not abort. */
  ghost predicate GoodPass(env: Env, r: Replica, rules: seq<Rule>)
    requires ValidEnv(env)
  {
    && env.base <= U64_MAX && PaceOk(env, r) && Awake(r)
    && IsPass(rules) && RulesOk(env, r, rules) && !FireAll(env, r, rules).exec.panicked
  }

  /** The states a pass goes through. */
  ghost predicate Went(env: Env, rules: seq<Rule>, ss: seq<Replica>)
    requires ValidEnv(env)
  {
    |ss| == |rules| + 1 && forall k: nat | k < |rules| :: WentAt(env, rules, ss, k)
  }

  ghost predicate WentAt(env: Env, rules: seq<Rule>, ss: seq<Replica>, k: nat)
    requires ValidEnv(env) && k < |rules| && |ss| == |rules| + 1
  {
    && !ss[k].exec.panicked && !ss[k + 1].exec.panicked && ReceiptsOk(ss[k].core) && RuleOk(env, ss[k], rules[k])
    && ss[k + 1] == Fire(env, ss[k], rules[k])
  }

  lemma PassStates(env: Env, r: Replica, rules: seq<Rule>) returns (ss: seq<Replica>)
    requires ValidEnv(env) && GoodPass(env, r, rules)
    ensures Went(env, rules, ss) && ss[0] == r && ss[|rules|] == FireAll(env, r, rules)
  {
    ss := seq(|rules| + 1, k requires 0 <= k <= |rules| => FireAll(env, r, rules[..k]));
    assert rules[..|rules|] == rules;
    forall k: nat | k < |rules| ensures WentAt(env, rules, ss, k) {
      BeforeRule(env, r, rules, k);
      if FireAll(env, r, rules[..k + 1]).exec.panicked { AbortStays(env, r, rules, k + 1); }
    }
  }

  lemma PassMiddle(env: Env, rules: seq<Rule>, ss: seq<Replica>)
    requires ValidEnv(env) && IsPass(rules) && Went(env, rules, ss)
    ensures Middle(env, ss[1], ss[2], ss[3], ss[4], ss[5], ss[6], ss[7],
                   rules[2].formed, rules[4].formed, rules[6].formed)
  {
    assert WentAt(env, rules, ss, 1) && WentAt(env, rules, ss, 2) && WentAt(env, rules, ss, 3);
    assert WentAt(env, rules, ss, 4) && WentAt(env, rules, ss, 5) && WentAt(env, rules, ss, 6);
  }

  /** The last rules of a pass that stays in its view change neither consensus state nor results. */
  lemma PassStops(env: Env, rules: seq<Rule>, ss: seq<Replica>)
    requires ValidEnv(env) && IsPass(rules) && Went(env, rules, ss)
    ensures ss[10].core == ss[8].core && ss[10].exec.validation == ss[8].exec.validation
    ensures if Decide in At(ss[7].core.viewData, ss[7].core.view).seen then ss[8].core.view == ss[7].core.view + 1
            else ss[8] == ss[7]
  {
    assert WentAt(env, rules, ss, 7) && WentAt(env, rules, ss, 8) && WentAt(env, rules, ss, 9);
    DecideLaw(env, ss[7]);
    QuietRule(env, ss[8], rules[8]);
    QuietRule(env, ss[9], rules[9]);
    FireAsks(env, ss[8], rules[8]);
    FireAsks(env, ss[9], rules[9]);
  }

  /** Later rules of the view leave the proposal rule's answer standing. */
  ghost predicate ProposalKept(s: Replica, s': Replica) {
    InView(s, s') && (Prepare in At(s.core.viewData, s.core.view).sent ==>
                      Prepare in At(s'.core.viewData, s.core.view).sent)
  }

  lemma StillAnswered(env: Env, s: Replica, s': Replica)
    requires ValidEnv(env) && ProposalDone(env, s) && ProposalKept(s, s')
    ensures ProposalDone(env, s')
  {
  }

  lemma MiddleStops(env: Env, rules: seq<Rule>, ss: seq<Replica>)
    requires ValidEnv(env) && IsPass(rules) && Went(env, rules, ss) && ss[10].core.view == ss[1].core.view
    ensures ProposalKept(ss[1], ss[7]) && ViewDone(env, ss[7])
    ensures ss[10].core == ss[7].core && ss[10].exec.validation == ss[7].exec.validation
  {
    PassMiddle(env, rules, ss);
    MiddleAnswers(env, ss[1], ss[2], ss[3], ss[4], ss[5], ss[6], ss[7],
                  rules[2].formed, rules[4].formed, rules[6].formed);
    PassStops(env, rules, ss);
  }

  lemma AfterPropose(env: Env, rules: seq<Rule>, ss: seq<Replica>)
    requires ValidEnv(env) && |ss| == |rules| + 1 && |rules| >= 1 && WentAt(env, rules, ss, 0)
    requires rules[0].ProposeRule? && ss[0].core.view >= 1
    ensures ss[1].core.view == ss[0].core.view && ProposalDone(env, ss[1])
  {
    assert rules[0] == ProposeRule(rules[0].high);
    ProposeMoves(env, ss[0], rules[0].high);
  }

  lemma StopsAnswered(env: Env, s: Replica, s': Replica, end: Replica)
    requires ValidEnv(env) && ProposalDone(env, s) && ProposalKept(s, s') && ViewDone(env, s')
    requires end.core == s'.core && end.exec.validation == s'.exec.validation
    ensures Answered(env, end)
  {
    StillAnswered(env, s, s');
  }

  /** After a pass that did not leave the view nothing in it is left unanswered. */
  lemma PassAnswers(env: Env, r: Replica, rules: seq<Rule>)
    requires ValidEnv(env) && GoodPass(env, r, rules) && FireAll(env, r, rules).core.view == r.core.view
    ensures Answered(env, FireAll(env, r, rules))
  {
    var ss := PassStates(env, r, rules);
    assert WentAt(env, rules, ss, 0);
    AfterPropose(env, rules, ss);
    MiddleStops(env, rules, ss);
    StopsAnswered(env, ss[1], ss[7], ss[10]);
  }

  // ----- what a pass sends -----

  /** The node a leader builds on a certificate, or on genesis. */
  predicate BuiltOn(env: Env, tree: Tree, high: Option<QC>, leaf: Node) {
    && IsBlock(env, NodeHash(leaf))
    && if high.None? then leaf.parent == Genesis && leaf.height == 0
       else high.value.node in tree && leaf.parent == high.value.node && leaf.height == tree[leaf.parent].height + 1
  }

  predicate ProposalDue(env: Env, r: Replica, high: Option<QC>)
    requires ValidEnv(env) && r.core.view >= 1
  {
    && Leader(env.n, r.core.view) == env.me && Prepare !in At(r.core.viewData, r.core.view).sent
    && |At(r.core.viewData, r.core.view - 1).newViews| >= Quorum(env.n)
    && CanBuildOn(env, r.core.tree, high)
  }

  /** Exactly when the leader proposes, and what: the next block of the workload on the given
      certificate, to every peer and to itself. */
  lemma ProposeLaw(env: Env, r: Replica, high: Option<QC>) returns (leaf: Node)
    requires ValidEnv(env) && r.core.view >= 1
    ensures !ProposalDue(env, r, high) ==> LeaderPrepare(env, r, high) == r
    ensures ProposalDue(env, r, high) ==> Proposed(env, r, LeaderPrepare(env, r, high), high, leaf)
  {
    var parent := if high.None? then Genesis else high.value.node;
    var height := if high.None? || parent !in r.core.tree then 0 else r.core.tree[parent].height + 1;
    leaf := Node(parent, env.blocks(height).cmd, height);
    if ProposalDue(env, r, high) { ProposesLeaf(env, r, high, leaf); } else { NotDue(env, r, high); }
  }

  lemma NotDue(env: Env, r: Replica, high: Option<QC>)
    requires ValidEnv(env) && r.core.view >= 1 && !ProposalDue(env, r, high)
    ensures LeaderPrepare(env, r, high) == r
  {
    var height := NextHeight(r.core.tree, high);
    assert !CanPropose(env, r) || height.None? || height.value >= env.numBlocks;
  }

  lemma ProposesLeaf(env: Env, r: Replica, high: Option<QC>, leaf: Node)
    requires ValidEnv(env) && r.core.view >= 1 && ProposalDue(env, r, high) && BuiltOn(env, r.core.tree, high, leaf)
    ensures Proposed(env, r, LeaderPrepare(env, r, high), high, leaf)
  {
    var v, d := r.core.view, At(r.core.viewData, r.core.view);
    var tree' := r.core.tree[NodeHash(leaf) := leaf];
    var d' := d.(sent := d.sent + {Prepare}, proposal := if d.proposal.None? then Some((leaf, high)) else d.proposal);
    ProposeShape(env, r, high, leaf, d');
    KickAsks(env, tree', r.exec, NodeHash(leaf));
    KickInRange(env, tree', r.exec, NodeHash(leaf));
  }

  lemma ProposeShape(env: Env, r: Replica, high: Option<QC>, leaf: Node, d': ViewData)
    requires ValidEnv(env) && r.core.view >= 1 && ProposalDue(env, r, high) && BuiltOn(env, r.core.tree, high, leaf)
    requires var d := At(r.core.viewData, r.core.view);
             d' == d.(sent := d.sent + {Prepare},
                      proposal := if d.proposal.None? then Some((leaf, high)) else d.proposal)
    ensures var r' := LeaderPrepare(env, r, high);
            var tree' := r.core.tree[NodeHash(leaf) := leaf];
            && r'.core == PutVd(r.core.(tree := tree'), r.core.view, d')
            && r'.exec == MaybeKick(env, tree', r.exec, NodeHash(leaf))
            && r'.io == r.io.(outbox := r.io.outbox + ToPeers(env, Proposal(r.core.view, leaf, high, env.me)))
  {
    assert CanPropose(env, r) && NextHeight(r.core.tree, high) == Some(leaf.height) && leaf.height < env.numBlocks;
    assert leaf == Node(JustifiedNode(high), env.blocks(leaf.height).cmd, leaf.height);
    var d := At(r.core.viewData, r.core.view);
    var d1 := if d.proposal.None? then d.(proposal := Some((leaf, high))) else d;
    assert d' == d1.(sent := d1.sent + {Prepare});
  }

  lemma KickInRange(env: Env, tree: Tree, ex: Exec, h: Hash)
    requires h in tree && tree[h].height < env.numBlocks
    ensures MaybeKick(env, tree, ex, h).panicked == ex.panicked
  {
  }

  ghost predicate Proposed(env: Env, r: Replica, r': Replica, high: Option<QC>, leaf: Node) {
    var v, d := r.core.view, At(r.core.viewData, r.core.view);
    && BuiltOn(env, r.core.tree, high, leaf)
    && OneView(r.core, r'.core, v, d.(sent := d.sent + {Prepare},
                                      proposal := if d.proposal.None? then Some((leaf, high)) else d.proposal))
    && r'.core == r.core.(viewData := r'.core.viewData, tree := r.core.tree[NodeHash(leaf) := leaf])
    && r'.io == r.io.(outbox := r.io.outbox + ToPeers(env, Proposal(v, leaf, high, env.me)))
    && r'.exec.validation == r.exec.validation && r'.exec.panicked == r.exec.panicked
  }

  lemma FirstFired(env: Env, r: Replica, rules: seq<Rule>)
    requires ValidEnv(env) && |rules| >= 1 && rules[0].ProposeRule? && !r.exec.panicked
    ensures FireAll(env, r, rules[..1]) == LeaderPrepare(env, r, rules[0].high)
  {
    FireNext(env, r, rules, 0);
  }

  lemma DueHighest(env: Env, r: Replica, high: Option<QC>)
    requires ValidEnv(env) && RuleOk(env, r, ProposeRule(high)) && Reported(env, r)
    ensures Highest(At(r.core.viewData, r.core.view - 1).newViews, high)
  {
  }

  lemma SecondFired(env: Env, r: Replica, rules: seq<Rule>)
    requires ValidEnv(env) && |rules| >= 2
    ensures FireAll(env, r, rules[..2]) == Fire(env, FireAll(env, r, rules[..1]), rules[1])
  {
    FireNext(env, r, rules, 1);
  }

  /** What the first rule of a pass leaves behind is there at its end. */
  lemma FirstStays(env: Env, r: Replica, rules: seq<Rule>)
    requires ValidEnv(env) && |rules| >= 1 && rules[0].ProposeRule? && !r.exec.panicked
    ensures Stays(env.me, LeaderPrepare(env, r, rules[0].high), FireAll(env, r, rules))
  {
    FirstFired(env, r, rules);
    PrefixStays(env, r, rules, 1);
  }

  lemma SecondStays(env: Env, r: Replica, rules: seq<Rule>, s: Replica)
    requires ValidEnv(env) && |rules| >= 2 && s == FireAll(env, r, rules[..2])
    ensures Stays(env.me, s, FireAll(env, r, rules))
  {
    PrefixStays(env, r, rules, 2);
  }

  /** The leader of the current view has n-f reports of the view before and has not proposed. */
  predicate Reported(env: Env, r: Replica)
    requires ValidEnv(env)
  {
    && r.core.view >= 1 && Leader(env.n, r.core.view) == env.me && Prepare !in At(r.core.viewData, r.core.view).sent
    && |At(r.core.viewData, r.core.view - 1).newViews| >= Quorum(env.n)
  }

  /** The proposal is flagged, its node known, and the message on the way to every peer. */
  ghost predicate ProposalOut(env: Env, v: nat, leaf: Node, high: Option<QC>, r: Replica) {
    && Prepare in At(r.core.viewData, v).sent && NodeHash(leaf) in r.core.tree
    && forall p: nat | p < env.n && p != env.me :: Envelope(p, Proposal(v, leaf, high, env.me)) in r.io.outbox
  }

  /** `high` is the highest report, and if the leader can build on it, `leaf` is out. */
  ghost predicate ProposedOn(env: Env, r: Replica, high: Option<QC>, leaf: Node, r': Replica)
    requires ValidEnv(env)
  {
    && r.core.view >= 1 && Highest(At(r.core.viewData, r.core.view - 1).newViews, high)
    && (CanBuildOn(env, r.core.tree, high) ==>
          BuiltOn(env, r.core.tree, high, leaf) && ProposalOut(env, r.core.view, leaf, high, r'))
  }

  /** A leader with n-f reports proposes in this pass, on the highest of them, when it knows the
      node and the workload has the next block. */
  lemma ProposesInPass(env: Env, r: Replica, rules: seq<Rule>, high: Option<QC>) returns (leaf: Node)
    requires ValidEnv(env) && |rules| >= 1 && rules[0] == ProposeRule(high) && RuleOk(env, r, ProposeRule(high))
    requires !r.exec.panicked && Reported(env, r)
    ensures ProposedOn(env, r, high, leaf, FireAll(env, r, rules))
  {
    FirstStays(env, r, rules);
    leaf := ProposalReaches(env, r, high, LeaderPrepare(env, r, high), FireAll(env, r, rules));
  }

  lemma ProposalReaches(env: Env, r: Replica, high: Option<QC>, s: Replica, r': Replica) returns (leaf: Node)
    requires ValidEnv(env) && RuleOk(env, r, ProposeRule(high)) && Reported(env, r)
    requires s == LeaderPrepare(env, r, high) && Stays(env.me, s, r')
    ensures ProposedOn(env, r, high, leaf, r')
  {
    DueHighest(env, r, high);
    leaf := ProposeLaw(env, r, high);
    if CanBuildOn(env, r.core.tree, high) { ProposedOut(env, r, s, high, leaf, r'); }
  }

  lemma ProposedOut(env: Env, r: Replica, s: Replica, high: Option<QC>, leaf: Node, r': Replica)
    requires Proposed(env, r, s, high, leaf) && Stays(env.me, s, r')
    ensures ProposalOut(env, r.core.view, leaf, high, r')
  {
    StaysAt(env.me, s, r', r.core.view);
  }

  lemma StaysAt(me: nat, r: Replica, r': Replica, v: nat)
    requires Stays(me, r, r')
    ensures Kept(me, At(r.core.viewData, v), At(r'.core.viewData, v))
  {
  }

  /** A stored, unvoted proposal of the current view with a true result that passes SafeNode. */
  predicate Votable(r: Replica, leaf: Node, high: Option<QC>) {
    && At(r.core.viewData, r.core.view).proposal == Some((leaf, high))
    && Prepare !in At(r.core.viewData, r.core.view).voted
    && NodeHash(leaf) in r.exec.validation && r.exec.validation[NodeHash(leaf)]
    && SafeNode(leaf, high, r.core.lockedQc, r.core.tree)
  }

  /** Such a proposal gets its ballot in this pass. */
  lemma VotesInPass(env: Env, r: Replica, rules: seq<Rule>, leaf: Node, high: Option<QC>)
    requires ValidEnv(env) && |rules| >= 2 && rules[0].ProposeRule? && rules[1] == PrepareRule
    requires !r.exec.panicked && r.core.view >= 1 && Votable(r, leaf, high)
    ensures Ballot(env.me, Prepare, r.core.view, NodeHash(leaf)) in FireAll(env, r, rules).io.signed
  {
    FirstFired(env, r, rules);
    SecondFired(env, r, rules);
    SecondStays(env, r, rules, FireAll(env, r, rules[..2]));
    BallotReaches(env, r, rules[0].high, leaf, high);
  }

  lemma BallotReaches(env: Env, r: Replica, proposed: Option<QC>, leaf: Node, high: Option<QC>)
    requires ValidEnv(env) && !r.exec.panicked && r.core.view >= 1 && Votable(r, leaf, high)
    ensures var s1 := Fire(env, r, ProposeRule(proposed));
            Ballot(env.me, Prepare, r.core.view, NodeHash(leaf)) in Fire(env, s1, PrepareRule).io.signed
  {
    var s1 := LeaderPrepare(env, r, proposed);
    ProposalUntouched(env, r, proposed);
    SafeStays(leaf, high, r.core.lockedQc, r.core.tree, s1.core.tree);
    PrepareLaw(env, s1);
    CastLaw(env, s1, Prepare, NodeHash(leaf));
  }

  /** Proposing leaves an earlier proposal, votes, results and the lock as they are. */
  lemma ProposalUntouched(env: Env, r: Replica, high: Option<QC>)
    requires ValidEnv(env) && r.core.view >= 1 && At(r.core.viewData, r.core.view).proposal.Some?
    ensures var r', v := LeaderPrepare(env, r, high), r.core.view;
            && r'.core.view == v && r'.core.lockedQc == r.core.lockedQc && Grows(r.core.tree, r'.core.tree)
            && r'.exec.validation == r.exec.validation && r'.exec.panicked == r.exec.panicked
            && At(r'.core.viewData, v).proposal == At(r.core.viewData, v).proposal
            && At(r'.core.viewData, v).voted == At(r.core.viewData, v).voted
  {
    var leaf := ProposeLaw(env, r, high);
  }

  lemma SafeStays(node: Node, qc: Option<QC>, locked: Option<QC>, tree: Tree, tree': Tree)
    requires SafeNode(node, qc, locked, tree) && Grows(tree, tree')
    ensures SafeNode(node, qc, locked, tree')
  {
    if locked.Some? && ExtendsFrom(node, locked.value.node, tree) {
      ExtendsFromMonotone(node, locked.value.node, tree, tree');
    }
  }

  // ----- a flag means a ballot -----

  /** The phase's certificate is staged and the replica signed for its node. */
  ghost predicate BackedVote(me: nat, r: Replica, k: MsgType, v: nat) {
    && k in At(r.core.viewData, v).seen && (k, v) in r.core.staged
    && Ballot(me, k, v, r.core.staged[(k, v)].node) in r.io.signed
  }

  /** Every PRE-COMMIT and COMMIT flag stands for such a ballot. */
  ghost predicate VotesBacked(me: nat, r: Replica) {
    forall k, v: nat | (k == PreCommit || k == Commit) && k in At(r.core.viewData, v).voted :: BackedVote(me, r, k, v)
  }

  /** No flag was set but PREPARE's. */
  ghost predicate NoNewFlag(r: Replica, r': Replica) {
    forall v: nat :: At(r'.core.viewData, v).voted <= At(r.core.viewData, v).voted + {Prepare}
  }

  lemma BackedStays(me: nat, r: Replica, r': Replica, k: MsgType, v: nat)
    requires BackedVote(me, r, k, v) && Stays(me, r, r')
    ensures BackedVote(me, r', k, v)
  {
    assert StagedKept(r.core, r'.core, k, v) && Kept(me, At(r.core.viewData, v), At(r'.core.viewData, v));
  }

  lemma FlagsBacked(me: nat, r: Replica, r': Replica)
    requires VotesBacked(me, r) && Stays(me, r, r') && NoNewFlag(r, r')
    ensures VotesBacked(me, r')
  {
    forall k, v: nat | (k == PreCommit || k == Commit) && k in At(r'.core.viewData, v).voted
      ensures BackedVote(me, r', k, v)
    {
      assert k in At(r.core.viewData, v).voted;
      BackedStays(me, r, r', k, v);
    }
  }

  lemma HandleFlags(env: Env, r: Replica, ev: Event)
    requires ValidEnv(env) && EventOk(r, ev)
    ensures NoNewFlag(r, Handle(env, r, ev))
  {
    if ev.Deliver? { MessageFlags(env, r, ev.msg); }
  }

  lemma MessageFlags(env: Env, r: Replica, msg: Wire)
    requires ValidEnv(env)
    ensures NoNewFlag(r, HandleMsg(env, r, msg))
  {
    match msg
    case Hello(_) =>
    case Proposal(view, node, j, sender) => ProposalFlags(env, r, view, node, j, sender);
    case PhaseQc(kind, view, cert, sender) => PhaseLaw(env, r, kind, view, cert, sender);
    case Vote(kind, view, h, voter, sig) => VoteLaw(env, r, kind, view, h, voter, sig);
    case NewViewMsg(view, j, sender) => ReportLaw(env, r, view, j, sender);
  }

  lemma ProposalFlags(env: Env, r: Replica, view: nat, node: Node, j: Option<QC>, sender: nat)
    requires ValidEnv(env)
    ensures NoNewFlag(r, HandleProposal(env, r, view, node, j, sender))
  {
  }

  lemma HandleBacked(env: Env, r: Replica, ev: Event)
    requires ValidEnv(env) && EventOk(r, ev) && VotesBacked(env.me, r)
    ensures VotesBacked(env.me, Handle(env, r, ev))
  {
    HandleStays(env, r, ev);
    HandleFlags(env, r, ev);
    FlagsBacked(env.me, r, Handle(env, r, ev));
  }

  lemma RuleFlags(env: Env, r: Replica, rule: Rule)
    requires ValidEnv(env) && RuleOk(env, r, rule) && !rule.PhaseRule?
    ensures NoNewFlag(r, Fire(env, r, rule))
  {
    if !r.exec.panicked {
      match rule
      case ProposeRule(high) => ProposeFlags(env, r, high);
      case PrepareRule => PrepareFlags(env, r);
      case FormRule(kind, formed) => FormMoves(env, r, kind, formed);
      case DecideRule => DecideFlags(env, r);
      case _ =>
    }
  }

  lemma ProposeFlags(env: Env, r: Replica, high: Option<QC>)
    requires ValidEnv(env)
    ensures NoNewFlag(r, LeaderPrepare(env, r, high))
  {
  }

  lemma DecideFlags(env: Env, r: Replica)
    requires ValidEnv(env)
    ensures NoNewFlag(r, ReplicaDecide(env, r))
  {
  }

  lemma PrepareFlags(env: Env, r: Replica)
    requires ValidEnv(env)
    ensures NoNewFlag(r, ReplicaPrepare(env, r))
  {
    var d := At(r.core.viewData, r.core.view);
    PrepareLaw(env, r);
    if Judged(r.exec.validation.Keys, d) { CastLaw(env, r, Prepare, NodeHash(d.proposal.value.0)); }
  }

  lemma CertVoteBacked(env: Env, r: Replica, kind: MsgType)
    requires ValidEnv(env) && ReceiptsOk(r.core) && (kind == PreCommit || kind == Commit) && VotesBacked(env.me, r)
    ensures VotesBacked(env.me, ReplicaPhase(env, r, kind))
  {
    var r', w := ReplicaPhase(env, r, kind), r.core.view;
    CertVoteLaw(env, r, kind);
    PhaseStays(env, r, kind);
    if r' != r {
      var cert := r.core.staged[(kind, w)];
      var c := if kind == Commit then r.core.(lockedQc := Some(cert)) else r.core.(prepareQc := Some(cert));
      CastLaw(env, r.(core := c), kind, cert.node);
      CastBacked(env.me, r, r', kind, cert);
    }
  }

  lemma CastBacked(me: nat, r: Replica, r': Replica, kind: MsgType, cert: QC)
    requires VotesBacked(me, r) && Stays(me, r, r')
    requires var w := r.core.view;
             && kind in At(r.core.viewData, w).seen && (kind, w) in r.core.staged && r.core.staged[(kind, w)] == cert
             && Ballot(me, kind, w, cert.node) in r'.io.signed
             && (forall v: nat | v != w :: At(r'.core.viewData, v) == At(r.core.viewData, v))
             && At(r'.core.viewData, w).voted == At(r.core.viewData, w).voted + {kind}
    ensures VotesBacked(me, r')
  {
    forall k, v: nat | (k == PreCommit || k == Commit) && k in At(r'.core.viewData, v).voted
      ensures BackedVote(me, r', k, v)
    {
      if k in At(r.core.viewData, v).voted {
        BackedStays(me, r, r', k, v);
      } else {
        assert StagedKept(r.core, r'.core, k, v) && Kept(me, At(r.core.viewData, v), At(r'.core.viewData, v));
      }
    }
  }

  lemma RuleBacked(env: Env, r: Replica, rule: Rule)
    requires ValidEnv(env) && RuleOk(env, r, rule) && ReceiptsOk(r.core) && VotesBacked(env.me, r)
    ensures VotesBacked(env.me, Fire(env, r, rule))
  {
    if rule.PhaseRule? {
      CertVoteBacked(env, r, rule.kind);
    } else {
      FireStays(env, r, rule);
      RuleFlags(env, r, rule);
      FlagsBacked(env.me, r, Fire(env, r, rule));
    }
  }

  lemma {:induction false} RulesBacked(env: Env, r: Replica, rules: seq<Rule>)
    requires ValidEnv(env) && env.base <= U64_MAX && PaceOk(env, r) && Awake(r) && RulesOk(env, r, rules)
    requires VotesBacked(env.me, r)
    ensures VotesBacked(env.me, FireAll(env, r, rules))
    decreases |rules|
  {
    if rules != [] {
      var front := rules[..|rules| - 1];
      RulesBacked(env, r, front);
      RulesPace(env, r, front);
      RuleBacked(env, FireAll(env, r, front), rules[|rules| - 1]);
    }
  }

  /** A turn keeps every flag backed. */
  lemma TurnBacked(env: Env, r: Replica, ev: Event, rules: seq<Rule>, r': Replica)
    requires ValidEnv(env) && env.base <= U64_MAX && PaceOk(env, r) && Awake(r) && VotesBacked(env.me, r)
    requires Turn(env, r, ev, rules, r')
    ensures VotesBacked(env.me, r')
  {
    HandleBacked(env, r, ev);
    EventPace(env, r, ev);
    RulesBacked(env, Handle(env, r, ev), rules);
  }
}
