/** Receipts and responses over every run: what a delivered message leaves in a replica for good,
    and what each turn does about it. */
module Deliveries {
  import opened Messages
  import opened Execution
  import opened ExecutionProofs
  import opened Replicas
  import opened Systems
  import opened Progress
  import opened Runs
  import opened Receipts
  import opened Responses

  // ----- steps of one replica -----

  /** The step from `w` to `w'` is the turn of replica i on this event. */
  ghost predicate Took(sys: Sys, w: World, w': World, i: nat, ev: Event)
    requires ValidSys(sys) && HasReplicas(sys, w)
  {
    && i in w.reps && (ev.Deliver? ==> Deliverable(sys, w, i, ev.msg))
    && exists rules: seq<Rule>, r': Replica :: Turn(EnvOf(sys, i), w.reps[i], ev, rules, r') && w' == Publish(w, i, r')
  }

  ghost predicate TookAt(sys: Sys, ws: seq<World>, k: nat, i: nat, ev: Event)
    requires ValidSys(sys) && k + 1 < |ws|
  {
    HasReplicas(sys, ws[k]) && Took(sys, ws[k], ws[k + 1], i, ev)
  }

  /** The replica right after the event, before the rules. */
  ghost function Woken(sys: Sys, w: World, i: nat, ev: Event): Replica
    requires ValidSys(sys) && HasReplicas(sys, w) && i in w.reps && EventOk(w.reps[i], ev)
  {
    Handle(EnvOf(sys, i), w.reps[i], ev)
  }

  /** Every step of a run is some replica's turn on some event. */
  lemma StepTaken(sys: Sys, ws: seq<World>, k: nat) returns (i: nat, ev: Event)
    requires ValidSys(sys) && IsRun(sys, ws) && k + 1 < |ws|
    ensures TookAt(sys, ws, k, i, ev)
  {
    assert StepAt(sys, ws, k);
    var j, e: Event, rules: seq<Rule>, r': Replica :|
      && j in ws[k].reps
      && (e.Deliver? ==> Deliverable(sys, ws[k], j, e.msg))
      && Turn(EnvOf(sys, j), ws[k].reps[j], e, rules, r')
      && ws[k + 1] == Publish(ws[k], j, r');
    i, ev := j, e;
  }

  lemma TookStays(sys: Sys, w: World, w': World, i: nat, ev: Event)
    requires ValidSys(sys) && HasReplicas(sys, w) && Took(sys, w, w', i, ev)
    ensures i in w'.reps && EventOk(w.reps[i], ev) && Stays(i, Woken(sys, w, i, ev), w'.reps[i])
  {
    var rules: seq<Rule>, r': Replica :| Turn(EnvOf(sys, i), w.reps[i], ev, rules, r') && w' == Publish(w, i, r');
    FireAllStays(EnvOf(sys, i), Handle(EnvOf(sys, i), w.reps[i], ev), rules);
  }

  lemma StepStays(sys: Sys, ws: seq<World>, k: nat, i: nat)
    requires ValidSys(sys) && IsRun(sys, ws) && k + 1 < |ws| && i in ws[k].reps
    ensures i in ws[k + 1].reps && Stays(i, ws[k].reps[i], ws[k + 1].reps[i])
  {
    var j, ev := StepTaken(sys, ws, k);
    if i == j {
      TookStays(sys, ws[k], ws[k + 1], i, ev);
      HandleStays(EnvOf(sys, i), ws[k].reps[i], ev);
      StaysTransitive(i, ws[k].reps[i], Woken(sys, ws[k], i, ev), ws[k + 1].reps[i]);
    } else {
      SameStays(i, ws[k].reps[i].core);
    }
  }

  /** Nothing a correct replica has learned, signed or sent is lost or replaced later in the run. */
  lemma NothingLost(sys: Sys, ws: seq<World>, k: nat, m: nat, i: nat)
    requires ValidSys(sys) && IsRun(sys, ws) && k <= m < |ws| && i in ws[k].reps
    ensures i in ws[m].reps && Stays(i, ws[k].reps[i], ws[m].reps[i])
  {
    SameStays(i, ws[k].reps[i].core);
    for j := k to m
      invariant i in ws[j].reps && Stays(i, ws[k].reps[i], ws[j].reps[i])
    {
      StepStays(sys, ws, j, i);
      StaysTransitive(i, ws[k].reps[i], ws[j].reps[i], ws[j + 1].reps[i]);
    }
  }

  lemma WokenStays(sys: Sys, ws: seq<World>, k: nat, m: nat, i: nat, ev: Event)
    requires ValidSys(sys) && IsRun(sys, ws) && k < m < |ws| && TookAt(sys, ws, k, i, ev)
    ensures EventOk(ws[k].reps[i], ev) && i in ws[m].reps && Stays(i, Woken(sys, ws[k], i, ev), ws[m].reps[i])
  {
    TookStays(sys, ws[k], ws[k + 1], i, ev);
    var woken, mid := Woken(sys, ws[k], i, ev), ws[k + 1].reps[i];
    LaterStays(sys, ws, k + 1, m, i, woken, mid);
  }

  lemma LaterStays(sys: Sys, ws: seq<World>, k: nat, m: nat, i: nat, r: Replica, mid: Replica)
    requires ValidSys(sys) && IsRun(sys, ws) && k <= m < |ws| && i in ws[k].reps && mid == ws[k].reps[i]
    requires Stays(i, r, mid)
    ensures i in ws[m].reps && Stays(i, r, ws[m].reps[i])
  {
    NothingLost(sys, ws, k, m, i);
    StaysTransitive(i, r, mid, ws[m].reps[i]);
  }

  // ----- receipts -----

  /** A delivered PHASE message from the leader of its view, of matching type and view, with a
      verifying certificate and not seen before, is flagged and staged from then on, whatever view
      the replica is in; a DECIDE's node is decided from then on. */
  lemma PhaseReceived(sys: Sys, ws: seq<World>, k: nat, m: nat, i: nat, kind: MsgType, view: nat, cert: QC, sender: nat)
    requires ValidSys(sys) && IsRun(sys, ws) && k < m < |ws|
    requires TookAt(sys, ws, k, i, Deliver(PhaseQc(kind, view, cert, sender)))
    requires GoodPhase(EnvOf(sys, i), kind, view, cert, sender)
    requires kind !in At(ws[k].reps[i].core.viewData, view).seen
    ensures i in ws[m].reps
    ensures var c := ws[m].reps[i].core;
            && kind in At(c.viewData, view).seen
            && (kind, view) in c.staged && c.staged[(kind, view)] == cert
            && (kind == Decide ==> cert.node in c.decided)
  {
    var ev := Deliver(PhaseQc(kind, view, cert, sender));
    WokenStays(sys, ws, k, m, i, ev);
    PhaseLaw(EnvOf(sys, i), ws[k].reps[i], kind, view, cert, sender);
    var c, c' := Woken(sys, ws[k], i, ev).core, ws[m].reps[i].core;
    assert StagedKept(c, c', kind, view) && Kept(i, At(c.viewData, view), At(c'.viewData, view));
  }

  /** A peer's first vote of a phase that reaches the leader of its view, signed by the voter, is
      counted from then on. */
  lemma VoteReceived(sys: Sys, ws: seq<World>, k: nat, m: nat, i: nat, kind: MsgType, view: nat, hash: Hash,
                     voter: nat, sig: Sig)
    requires ValidSys(sys) && IsRun(sys, ws) && k < m < |ws|
    requires TookAt(sys, ws, k, i, Deliver(Vote(kind, view, hash, voter, sig)))
    requires GoodVote(EnvOf(sys, i), kind, view, hash, voter, sig) && voter != i
    requires voter !in Bucket(At(ws[k].reps[i].core.viewData, view).votes, kind)
    ensures i in ws[m].reps
    ensures var bucket := Bucket(At(ws[m].reps[i].core.viewData, view).votes, kind);
            voter in bucket && bucket[voter] == (hash, sig)
  {
    var ev := Deliver(Vote(kind, view, hash, voter, sig));
    WokenStays(sys, ws, k, m, i, ev);
    VoteLaw(EnvOf(sys, i), ws[k].reps[i], kind, view, hash, voter, sig);
    var c, c' := Woken(sys, ws[k], i, ev).core, ws[m].reps[i].core;
    assert Kept(i, At(c.viewData, view), At(c'.viewData, view));
    assert VotesKept(i, Bucket(At(c.viewData, view).votes, kind), Bucket(At(c'.viewData, view).votes, kind));
  }

  /** A peer's first NEW-VIEW report that reaches the leader of the next view, with a verifying
      certificate or none, is collected from then on. */
  lemma ReportReceived(sys: Sys, ws: seq<World>, k: nat, m: nat, i: nat, view: nat, justify: Option<QC>, sender: nat)
    requires ValidSys(sys) && IsRun(sys, ws) && k < m < |ws|
    requires TookAt(sys, ws, k, i, Deliver(NewViewMsg(view, justify, sender)))
    requires GoodReport(EnvOf(sys, i), view, justify) && sender != i
    requires sender !in At(ws[k].reps[i].core.viewData, view).newViews
    ensures i in ws[m].reps
    ensures var reports := At(ws[m].reps[i].core.viewData, view).newViews;
            sender in reports && reports[sender] == justify
  {
    var ev := Deliver(NewViewMsg(view, justify, sender));
    WokenStays(sys, ws, k, m, i, ev);
    ReportLaw(EnvOf(sys, i), ws[k].reps[i], view, justify, sender);
    var c, c' := Woken(sys, ws[k], i, ev).core, ws[m].reps[i].core;
    assert Kept(i, At(c.viewData, view), At(c'.viewData, view));
  }

  /** The node of a delivered good proposal is known from then on, and the first of its view is the
      one to vote on. */
  lemma ProposalReceived(sys: Sys, ws: seq<World>, k: nat, m: nat, i: nat, view: nat, node: Node,
                         justify: Option<QC>, sender: nat)
    requires ValidSys(sys) && IsRun(sys, ws) && k < m < |ws|
    requires TookAt(sys, ws, k, i, Deliver(Proposal(view, node, justify, sender)))
    requires GoodProposal(EnvOf(sys, i), view, node, justify, sender)
    ensures i in ws[m].reps
    ensures var c := ws[m].reps[i].core;
            && NodeHash(node) in c.tree && c.tree[NodeHash(node)] == node
            && (At(ws[k].reps[i].core.viewData, view).proposal.None? ==>
                  At(c.viewData, view).proposal == Some((node, justify)))
  {
    var ev := Deliver(Proposal(view, node, justify, sender));
    WokenStays(sys, ws, k, m, i, ev);
    LastAtLeast(sys, ws, k, i);
    ProposalLaw(EnvOf(sys, i), ws[k].reps[i], view, node, justify, sender);
    var c, c' := Woken(sys, ws[k], i, ev).core, ws[m].reps[i].core;
    assert Kept(i, At(c.viewData, view), At(c'.viewData, view));
  }

  lemma LastAtLeast(sys: Sys, ws: seq<World>, k: nat, i: nat)
    requires ValidSys(sys) && IsRun(sys, ws) && k < |ws| && i in ws[k].reps && i < sys.cfg.n
    ensures ws[k].reps[i].exec.last >= -1 && NodeOk(EnvOf(sys, i), ws[k].reps[i])
  {
    RunGood(sys, ws, k);
    assert NodeOk(EnvOf(sys, i), ws[k].reps[i]);
    assert TraceOk(ws[k].reps[i].core.decided, ws[k].reps[i].exec);
  }

  // ----- ballots and validation results -----

  /** Every PREPARE ballot added is for a node whose result is true. */
  ghost predicate SignsValid(r: Replica, r': Replica) {
    && r.io.signed <= r'.io.signed && r'.exec.validation == r.exec.validation
    && forall j | |r.io.signed| <= j < |r'.io.signed| && r'.io.signed[j].kind == Prepare ::
         var h := r'.io.signed[j].node; h in r'.exec.validation && r'.exec.validation[h]
  }

  lemma SignsValidTransitive(a: Replica, b: Replica, c: Replica)
    requires SignsValid(a, b) && SignsValid(b, c)
    ensures SignsValid(a, c)
  {
  }

  lemma RuleSignsValid(env: Env, r: Replica, rule: Rule)
    requires ValidEnv(env) && RuleOk(env, r, rule)
    ensures SignsValid(r, Fire(env, r, rule))
  {
    FireAsks(env, r, rule);
    if rule == PrepareRule { PrepareSignsValid(env, r); }
  }

  lemma PrepareSignsValid(env: Env, r: Replica)
    requires ValidEnv(env)
    ensures SignsValid(r, ReplicaPrepare(env, r))
  {
    PrepareLaw(env, r);
    var d := At(r.core.viewData, r.core.view);
    if Judged(r.exec.validation.Keys, d) { CastLaw(env, r, Prepare, NodeHash(d.proposal.value.0)); }
  }

  lemma {:induction false} RulesSignValid(env: Env, r: Replica, rules: seq<Rule>)
    requires ValidEnv(env) && RulesOk(env, r, rules)
    ensures SignsValid(r, FireAll(env, r, rules))
    decreases |rules|
  {
    if rules != [] {
      var front := rules[..|rules| - 1];
      RulesSignValid(env, r, front);
      RuleSignsValid(env, FireAll(env, r, front), rules[|rules| - 1]);
      SignsValidTransitive(r, FireAll(env, r, front), FireAll(env, r, rules));
    }
  }

  /** In every step of every run, each PREPARE ballot a correct replica adds is for a node whose
      recorded result is true when it signs. */
  lemma VotesOnlyForValid(sys: Sys, ws: seq<World>, k: nat, i: nat, ev: Event)
    requires ValidSys(sys) && IsRun(sys, ws) && k + 1 < |ws| && TookAt(sys, ws, k, i, ev)
    ensures i in ws[k + 1].reps && EventOk(ws[k].reps[i], ev)
    ensures Woken(sys, ws[k], i, ev).io.signed == ws[k].reps[i].io.signed
    ensures SignsValid(Woken(sys, ws[k], i, ev), ws[k + 1].reps[i])
  {
    var w, w' := ws[k], ws[k + 1];
    var rules: seq<Rule>, r': Replica :| Turn(EnvOf(sys, i), w.reps[i], ev, rules, r') && w' == Publish(w, i, r');
    HandleSigned(EnvOf(sys, i), w.reps[i], ev);
    RulesSignValid(EnvOf(sys, i), Handle(EnvOf(sys, i), w.reps[i], ev), rules);
  }

  lemma TookVotes(sys: Sys, w: World, w': World, i: nat, ev: Event, leaf: Node, high: Option<QC>)
    requires ValidSys(sys) && HasReplicas(sys, w) && Took(sys, w, w', i, ev) && EventOk(w.reps[i], ev)
    requires var r := Woken(sys, w, i, ev); !r.exec.panicked && r.core.view >= 1 && Votable(r, leaf, high)
    ensures i in w'.reps && Ballot(i, Prepare, Woken(sys, w, i, ev).core.view, NodeHash(leaf)) in w'.reps[i].io.signed
  {
    var rules: seq<Rule>, r': Replica :| Turn(EnvOf(sys, i), w.reps[i], ev, rules, r') && w' == Publish(w, i, r');
    VotesInPass(EnvOf(sys, i), Woken(sys, w, i, ev), rules, leaf, high);
  }

  lemma WokenNode(sys: Sys, ws: seq<World>, k: nat, i: nat, ev: Event)
    requires ValidSys(sys) && IsRun(sys, ws) && k < |ws| && HasReplicas(sys, ws[k]) && i in ws[k].reps
    requires !ws[k].reps[i].exec.panicked && EventOk(ws[k].reps[i], ev)
    ensures NodeOk(EnvOf(sys, i), Woken(sys, ws[k], i, ev)) && Woken(sys, ws[k], i, ev).core.view >= 1
  {
    LastAtLeast(sys, ws, k, i);
    EventNode(EnvOf(sys, i), ws[k].reps[i], ev);
  }

  /** And the other half: a stored, unvoted proposal of the current view with a true result that
      passes SafeNode gets its ballot in the same turn. */
  lemma ValidGetsVote(sys: Sys, ws: seq<World>, k: nat, i: nat, ev: Event, leaf: Node, high: Option<QC>)
    requires ValidSys(sys) && IsRun(sys, ws) && k + 1 < |ws| && TookAt(sys, ws, k, i, ev) && EventOk(ws[k].reps[i], ev)
    requires var r := Woken(sys, ws[k], i, ev); !r.exec.panicked && Votable(r, leaf, high)
    ensures i in ws[k + 1].reps
    ensures Ballot(i, Prepare, Woken(sys, ws[k], i, ev).core.view, NodeHash(leaf)) in ws[k + 1].reps[i].io.signed
  {
    TookRunning(sys, ws[k], ws[k + 1], i, ev);
    WokenNode(sys, ws, k, i, ev);
    TookVotes(sys, ws[k], ws[k + 1], i, ev, leaf, high);
  }

  lemma TookRunning(sys: Sys, w: World, w': World, i: nat, ev: Event)
    requires ValidSys(sys) && HasReplicas(sys, w) && Took(sys, w, w', i, ev)
    ensures Running(EnvOf(sys, i), w.reps[i]) && EventOk(w.reps[i], ev) && i in w'.reps
  {
  }

  // ----- answers -----

  lemma FirstRuleOk(env: Env, r: Replica, rules: seq<Rule>)
    requires ValidEnv(env) && RulesOk(env, r, rules) && rules != []
    ensures RuleOk(env, r, rules[0])
  {
    RuleOkAt(env, r, rules, 0);
  }

  lemma TookProposes(sys: Sys, w: World, w': World, i: nat, ev: Event) returns (high: Option<QC>, leaf: Node)
    requires ValidSys(sys) && HasReplicas(sys, w) && Took(sys, w, w', i, ev) && EventOk(w.reps[i], ev)
    requires var r := Woken(sys, w, i, ev); !r.exec.panicked && Reported(EnvOf(sys, i), r)
    ensures i in w'.reps && ProposedOn(EnvOf(sys, i), Woken(sys, w, i, ev), high, leaf, w'.reps[i])
  {
    var rules: seq<Rule>, r': Replica :| Turn(EnvOf(sys, i), w.reps[i], ev, rules, r') && w' == Publish(w, i, r');
    high := rules[0].high;
    FirstRuleOk(EnvOf(sys, i), Woken(sys, w, i, ev), rules);
    leaf := ProposesInPass(EnvOf(sys, i), Woken(sys, w, i, ev), rules, high);
  }

  /** In every step of every run, a leader with n-f reports that has not proposed proposes in that
      turn, on the highest report, when it knows the node and the workload has the next block. */
  lemma LeaderProposes(sys: Sys, ws: seq<World>, k: nat, i: nat, ev: Event) returns (high: Option<QC>, leaf: Node)
    requires ValidSys(sys) && IsRun(sys, ws) && k + 1 < |ws| && TookAt(sys, ws, k, i, ev) && EventOk(ws[k].reps[i], ev)
    requires var r := Woken(sys, ws[k], i, ev); !r.exec.panicked && Reported(EnvOf(sys, i), r)
    ensures i in ws[k + 1].reps && ProposedOn(EnvOf(sys, i), Woken(sys, ws[k], i, ev), high, leaf, ws[k + 1].reps[i])
  {
    high, leaf := TookProposes(sys, ws[k], ws[k + 1], i, ev);
  }

  lemma TookAnswers(sys: Sys, w: World, w': World, i: nat, ev: Event)
    requires ValidSys(sys) && HasReplicas(sys, w) && Took(sys, w, w', i, ev) && EventOk(w.reps[i], ev)
    requires NodeOk(EnvOf(sys, i), Woken(sys, w, i, ev)) && !w'.reps[i].exec.panicked
    requires w'.reps[i].core.view == Woken(sys, w, i, ev).core.view
    ensures Answered(EnvOf(sys, i), w'.reps[i])
  {
    var rules: seq<Rule>, r': Replica :| Turn(EnvOf(sys, i), w.reps[i], ev, rules, r') && w' == Publish(w, i, r');
    PassAnswers(EnvOf(sys, i), Woken(sys, w, i, ev), rules);
  }

  /** After every turn of every run that stays in its view and does not abort, nothing in that view
      is left unanswered. */
  lemma NothingUnanswered(sys: Sys, ws: seq<World>, k: nat, i: nat, ev: Event)
    requires ValidSys(sys) && IsRun(sys, ws) && k + 1 < |ws| && TookAt(sys, ws, k, i, ev)
    requires i in ws[k + 1].reps && !ws[k + 1].reps[i].exec.panicked && EventOk(ws[k].reps[i], ev)
    requires ws[k + 1].reps[i].core.view == Woken(sys, ws[k], i, ev).core.view
    ensures Answered(EnvOf(sys, i), ws[k + 1].reps[i])
  {
    TookRunning(sys, ws[k], ws[k + 1], i, ev);
    WokenNode(sys, ws, k, i, ev);
    TookAnswers(sys, ws[k], ws[k + 1], i, ev);
  }

  lemma StepBacked(sys: Sys, ws: seq<World>, k: nat, i: nat)
    requires ValidSys(sys) && IsRun(sys, ws) && k + 1 < |ws| && i in ws[k].reps && i < sys.cfg.n
    requires VotesBacked(i, ws[k].reps[i])
    ensures i in ws[k + 1].reps && VotesBacked(i, ws[k + 1].reps[i])
  {
    var j, ev := StepTaken(sys, ws, k);
    LastAtLeast(sys, ws, k, i);
    if i == j {
      var rules: seq<Rule>, r': Replica :|
        Turn(EnvOf(sys, i), ws[k].reps[i], ev, rules, r') && ws[k + 1] == Publish(ws[k], i, r');
      TurnBacked(EnvOf(sys, i), ws[k].reps[i], ev, rules, r');
    }
  }

  /** In every run a PRE-COMMIT or COMMIT flag stands for a ballot on the node of the certificate that
      was received. */
  lemma FlagsMeanBallots(sys: Sys, ws: seq<World>, k: nat, i: nat)
    requires ValidSys(sys) && IsRun(sys, ws) && k < |ws| && i in ws[0].reps && i < sys.cfg.n
    ensures i in ws[k].reps && VotesBacked(i, ws[k].reps[i])
  {
    for j := 0 to k
      invariant i in ws[j].reps && VotesBacked(i, ws[j].reps[i])
    {
      StepBacked(sys, ws, j, i);
    }
  }

  /** A replica leaves its main loop exactly when it aborted or has executed every block. */
  lemma StopsExactly(sys: Sys, ws: seq<World>, k: nat, i: nat)
    requires ValidSys(sys) && IsRun(sys, ws) && k < |ws| && i in ws[k].reps && i < sys.cfg.n
    ensures Running(EnvOf(sys, i), ws[k].reps[i])
       <==> !ws[k].reps[i].exec.panicked && |ws[k].reps[i].exec.executed| < sys.numBlocks
  {
    LastAtLeast(sys, ws, k, i);
  }
}
