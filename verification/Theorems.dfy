/** Main results, stated over every run. */
module Theorems {
  import opened Messages
  import opened Quorums
  import opened Ancestry
  import opened Ledger
  import opened Merkle
  import opened Generator
  import opened Execution
  import opened ExecutionProofs
  import opened ExecutionOrder
  import opened Replicas
  import opened VoteLog
  import opened Systems
  import opened Safety
  import opened Proposals
  import ProposalSteps
  import opened Pacemaker
  import opened Duties
  import opened Progress
  import opened Halting
  import opened Runs
  import opened Heights

  // ----- agreement -----

  /** The vote log of every world of every run is one the abstract protocol allows. */
  lemma RunLogOk(sys: Sys, ws: seq<World>, k: nat)
    requires ValidSys(sys) && IsRun(sys, ws) && k < |ws|
    ensures LogOk(sys.cfg, ws[k].log)
  {
    RunGood(sys, ws, k);
  }

  /** Agreement: once a commit certificate exists, every valid certificate of that or a later view
      is for a descendant of the committed node. */
  lemma Agreement(sys: Sys, ws: seq<World>, k: nat, commit: QC, other: QC)
    requires ValidSys(sys) && IsRun(sys, ws) && k < |ws|
    requires GoodQc(sys.cfg, ws[k].log, commit) && commit.kind == Commit
    requires GoodQc(sys.cfg, ws[k].log, other) && other.view >= commit.view
    ensures Extends(other.node, commit.node)
  {
    RunLogOk(sys, ws, k);
    GoodQcCertified(sys.cfg, ws[k].log, commit);
    GoodQcCertified(sys.cfg, ws[k].log, other);
    LaterCertificateExtends(sys.cfg, ws[k].log, commit.view, commit.node, other.kind, other.view, other.node);
  }

  /** In one view all valid certificates, of whatever phase, name one node, and each rests on a
      PREPARE quorum that was complete no later. */
  lemma CertificateUniqueness(sys: Sys, ws: seq<World>, k: nat, a: QC, b: QC) returns (i: nat)
    requires ValidSys(sys) && IsRun(sys, ws) && k < |ws|
    requires GoodQc(sys.cfg, ws[k].log, a) && GoodQc(sys.cfg, ws[k].log, b) && a.view == b.view
    ensures a.node == b.node && a.kind in {Prepare, PreCommit, Commit}
    ensures i <= |ws[k].log| && Certified(sys.cfg, ws[k].log[..i], Prepare, a.view, a.node)
    ensures a.kind != Prepare ==> i < |ws[k].log|
  {
    RunLogOk(sys, ws, k);
    GoodQcCertified(sys.cfg, ws[k].log, a);
    GoodQcCertified(sys.cfg, ws[k].log, b);
    CertificateUnique(sys.cfg, ws[k].log, a.kind, a.node, b.kind, b.node, a.view);
    i := CertifiedPrepare(sys.cfg, ws[k].log, a.kind, a.view, a.node);
  }

  lemma DecidedCertified(sys: Sys, ws: seq<World>, k: nat, i: nat, h: Hash, m: nat) returns (v: nat)
    requires ValidSys(sys) && IsRun(sys, ws) && k <= m < |ws|
    requires i in ws[k].reps && h in ws[k].reps[i].core.decided
    ensures Certified(sys.cfg, ws[m].log, Commit, v, h)
  {
    RunGood(sys, ws, k);
    assert Held(sys.cfg, ws[k].log, i, ws[k].reps[i]) && HasCommit(sys.cfg, ws[k].log, h);
    v :| Certified(sys.cfg, ws[k].log, Commit, v, h);
    RunLogGrows(sys, ws, k, m);
    CertifiedMonotone(sys.cfg, ws[k].log, ws[m].log, Commit, v, h);
  }

  /** No two conflicting nodes are ever decided, by any correct replicas at any times. */
  lemma DecidedNeverConflict(sys: Sys, ws: seq<World>, k: nat, i: nat, a: Hash, m: nat, j: nat, b: Hash)
    requires ValidSys(sys) && IsRun(sys, ws) && k < |ws| && m < |ws|
    requires i in ws[k].reps && a in ws[k].reps[i].core.decided
    requires j in ws[m].reps && b in ws[m].reps[j].core.decided
    ensures Extends(a, b) || Extends(b, a)
  {
    var end := |ws| - 1;
    var v := DecidedCertified(sys, ws, k, i, a, end);
    var u := DecidedCertified(sys, ws, m, j, b, end);
    RunLogOk(sys, ws, end);
    CommitsAgree(sys.cfg, ws[end].log, v, a, u, b);
  }

  // ----- external validity -----

  ghost predicate AllVerify(sys: Sys) {
    forall i: nat | Correct(sys.cfg, i) :: sys.modes(i) == Verify
  }

  /** What a quorum prepared, some correct replica validated. */
  lemma CertifiedBlock(sys: Sys, w: World, kind: MsgType, v: nat, h: Hash, i: nat)
    requires ValidSys(sys) && Good(sys, w) && Certified(sys.cfg, w.log, kind, v, h) && i < sys.cfg.n
    ensures IsBlock(EnvOf(sys, i), h)
    ensures AllVerify(sys) ==> sys.blocks(h.node.height).proof.Some?
  {
    var p := CertifiedPrepare(sys.cfg, w.log, kind, v, h);
    var s := CorrectSupporter(sys.cfg, w.log[..p], Prepare, v, h);
    assert Signed(sys.cfg, w.log, s, w.reps[s]) && NodeOk(EnvOf(sys, s), w.reps[s]);
    assert Ballot(s, Prepare, v, h) in w.reps[s].io.signed;
  }

  /** In every run a valid certificate names a block of the workload: a height below the number of
      blocks, with the identifier that the workload has at that height. Where the correct replicas
      verify proofs, that block has one that verifies. */
  lemma ExternalValidity(sys: Sys, ws: seq<World>, k: nat, qc: QC, i: nat)
    requires ValidSys(sys) && IsRun(sys, ws) && k < |ws| && GoodQc(sys.cfg, ws[k].log, qc) && i < sys.cfg.n
    ensures IsBlock(EnvOf(sys, i), qc.node)
    ensures AllVerify(sys) ==> sys.blocks(qc.node.node.height).proof.Some?
  {
    RunGood(sys, ws, k);
    GoodQcCertified(sys.cfg, ws[k].log, qc);
    CertifiedBlock(sys, ws[k], qc.kind, qc.view, qc.node, i);
  }

  /** And so does every node a correct replica saw decided. */
  lemma DecidedValidity(sys: Sys, ws: seq<World>, k: nat, i: nat, h: Hash)
    requires ValidSys(sys) && IsRun(sys, ws) && k < |ws| && i in ws[k].reps && i < sys.cfg.n
    requires h in ws[k].reps[i].core.decided
    ensures IsBlock(EnvOf(sys, i), h)
    ensures AllVerify(sys) ==> sys.blocks(h.node.height).proof.Some?
  {
    var v := DecidedCertified(sys, ws, k, i, h, k);
    RunGood(sys, ws, k);
    CertifiedBlock(sys, ws[k], Commit, v, h, i);
  }

  // ----- voting and locking -----

  /** A correct replica signs at most one ballot per phase and view, none beyond its view, and
      keeps certificates that verify and are no newer than its view. */
  lemma VoteDiscipline(sys: Sys, ws: seq<World>, k: nat, i: nat, a: Ballot, b: Ballot)
    requires ValidSys(sys) && IsRun(sys, ws) && k < |ws| && i in ws[k].reps
    requires a in ws[k].reps[i].io.signed && b in ws[k].reps[i].io.signed
    ensures a.voter == i && a.view <= ws[k].reps[i].core.view
    ensures a.kind == b.kind && a.view == b.view ==> a == b
  {
    RunGood(sys, ws, k);
    assert Signed(sys.cfg, ws[k].log, i, ws[k].reps[i]);
    if a.kind == b.kind && a.view == b.view {
      OneBallotPerPhase(sys.cfg, ws[k].log, a, b);
    }
  }

  /** A move signs only ballots of the views it passes through. */
  ghost predicate SignsCurrent(r: Replica, r': Replica) {
    && r.core.view <= r'.core.view && r.io.signed <= r'.io.signed
    && forall k | |r.io.signed| <= k < |r'.io.signed| :: r.core.view <= r'.io.signed[k].view <= r'.core.view
  }

  lemma SignsTransitive(r: Replica, s: Replica, t: Replica)
    requires SignsCurrent(r, s) && SignsCurrent(s, t)
    ensures SignsCurrent(r, t)
  {
  }

  lemma FireSigns(env: Env, r: Replica, rule: Rule)
    requires ValidEnv(env)
    ensures SignsCurrent(r, Fire(env, r, rule))
  {
    ViewUp(env, r, rule);
  }

  lemma HandleSigns(env: Env, r: Replica, ev: Event)
    requires ValidEnv(env) && EventOk(r, ev)
    ensures SignsCurrent(r, Handle(env, r, ev))
  {
    HandleSigned(env, r, ev);
  }

  lemma {:induction false} RulesSign(env: Env, r: Replica, rules: seq<Rule>)
    requires ValidEnv(env)
    ensures SignsCurrent(r, FireAll(env, r, rules))
    decreases |rules|
  {
    if rules != [] {
      var mid := FireAll(env, r, rules[..|rules| - 1]);
      RulesSign(env, r, rules[..|rules| - 1]);
      FireSigns(env, mid, rules[|rules| - 1]);
      SignsTransitive(r, mid, FireAll(env, r, rules));
    }
  }

  lemma StepSigns(sys: Sys, w: World, w': World, i: nat)
    requires ValidSys(sys) && HasReplicas(sys, w) && Step(sys, w, w') && i in w.reps
    ensures i in w'.reps && SignsCurrent(w.reps[i], w'.reps[i])
  {
    var j, ev: Event, rules: seq<Rule>, r': Replica :|
      && j in w.reps
      && (ev.Deliver? ==> Deliverable(sys, w, j, ev.msg))
      && Turn(EnvOf(sys, j), w.reps[j], ev, rules, r')
      && w' == Publish(w, j, r');
    if i == j {
      var mid := Handle(EnvOf(sys, i), w.reps[i], ev);
      HandleSigns(EnvOf(sys, i), w.reps[i], ev);
      RulesSign(EnvOf(sys, i), mid, rules);
      SignsTransitive(w.reps[i], mid, r');
    }
  }

  lemma RunSigns(sys: Sys, ws: seq<World>, k: nat, i: nat)
    requires ValidSys(sys) && IsRun(sys, ws) && k + 1 < |ws| && i in ws[k].reps
    ensures i in ws[k + 1].reps && SignsCurrent(ws[k].reps[i], ws[k + 1].reps[i])
  {
    assert StepAt(sys, ws, k);
    StepSigns(sys, ws[k], ws[k + 1], i);
  }

  /** Over any stretch of a run a correct replica signs only for views it is in during it. */
  lemma VotesAreCurrent(sys: Sys, ws: seq<World>, k: nat, m: nat, i: nat)
    requires ValidSys(sys) && IsRun(sys, ws) && k <= m < |ws| && i in ws[k].reps
    ensures i in ws[m].reps && SignsCurrent(ws[k].reps[i], ws[m].reps[i])
  {
    for j := k to m
      invariant i in ws[j].reps && SignsCurrent(ws[k].reps[i], ws[j].reps[i])
    {
      RunSigns(sys, ws, j, i);
      SignsTransitive(ws[k].reps[i], ws[j].reps[i], ws[j + 1].reps[i]);
    }
  }

  lemma StoredCertificates(sys: Sys, ws: seq<World>, k: nat, i: nat)
    requires ValidSys(sys) && IsRun(sys, ws) && k < |ws| && i in ws[k].reps
    ensures var c := ws[k].reps[i].core;
            && (c.lockedQc.Some? ==> GoodQc(sys.cfg, ws[k].log, c.lockedQc.value) && c.lockedQc.value.view <= c.view
                                     && Locked(ws[k].log, i, c.lockedQc.value.view, c.lockedQc.value.node))
            && (c.prepareQc.Some? ==> GoodQc(sys.cfg, ws[k].log, c.prepareQc.value) && c.prepareQc.value.view <= c.view
                                      && Ballot(i, PreCommit, c.prepareQc.value.view, c.prepareQc.value.node)
                                         in ws[k].log)
  {
    RunGood(sys, ws, k);
    assert Signed(sys.cfg, ws[k].log, i, ws[k].reps[i]);
  }

  /** The views of prepareQC and lockedQC never go down. */
  lemma LocksNeverDecrease(sys: Sys, ws: seq<World>, k: nat, m: nat, i: nat)
    requires ValidSys(sys) && IsRun(sys, ws) && k <= m < |ws| && i in ws[k].reps && i in ws[m].reps
    ensures var c, d := ws[k].reps[i].core, ws[m].reps[i].core;
            && (c.lockedQc.Some? ==> d.lockedQc.Some? && c.lockedQc.value.view <= d.lockedQc.value.view)
            && (c.prepareQc.Some? ==> d.prepareQc.Some? && c.prepareQc.value.view <= d.prepareQc.value.view)
  {
    StoredCertificates(sys, ws, k, i);
    RunLogGrows(sys, ws, k, m);
    RunSigned(sys, ws, m, i);
  }

  lemma RunSigned(sys: Sys, ws: seq<World>, k: nat, i: nat)
    requires ValidSys(sys) && IsRun(sys, ws) && k < |ws| && i in ws[k].reps
    ensures Signed(sys.cfg, ws[k].log, i, ws[k].reps[i])
  {
    RunGood(sys, ws, k);
  }

  /** No hidden lock: a correct leader's proposal passes SafeNode at every correct replica that has
      not left its view. */
  lemma ProposalsAreSafe(sys: Sys, ws: seq<World>, k: nat, e: Envelope, i: nat)
    requires ValidSys(sys) && IsRun(sys, ws) && k < |ws| && i in ws[k].reps
    requires e.msg.Proposal? && e.msg.sender in ws[k].reps && e in ws[k].reps[e.msg.sender].io.outbox
    requires ws[k].reps[i].core.view <= e.msg.view
    ensures SafeNode(e.msg.node, e.msg.justify, ws[k].reps[i].core.lockedQc, ws[k].reps[i].core.tree)
  {
    RunGood(sys, ws, k);
    ProposalSteps.NoHiddenLock(sys, ws[k], e, i);
  }

  lemma RunNode(sys: Sys, ws: seq<World>, k: nat, i: nat)
    requires ValidSys(sys) && IsRun(sys, ws) && k < |ws| && i in ws[k].reps && i < sys.cfg.n
    ensures NodeOk(EnvOf(sys, i), ws[k].reps[i])
  {
    RunGood(sys, ws, k);
  }

  /** Every vote, view change and broadcast of a correct replica reaches the network. */
  lemma NothingForgotten(sys: Sys, ws: seq<World>, k: nat, i: nat)
    requires ValidSys(sys) && IsRun(sys, ws) && k < |ws| && i in ws[k].reps && i < sys.cfg.n
    ensures DutiesOk(EnvOf(sys, i), ws[k].reps[i])
  {
    RunNode(sys, ws, k, i);
  }

  // ----- replicated execution -----

  /** What a replica executed: heights 0,1,2,..., each an ancestor of a node it saw decided. */
  lemma ExecutedTrace(sys: Sys, ws: seq<World>, k: nat, i: nat)
    requires ValidSys(sys) && IsRun(sys, ws) && k < |ws| && i in ws[k].reps && i < sys.cfg.n
    ensures TraceOk(ws[k].reps[i].core.decided, ws[k].reps[i].exec)
  {
    RunNode(sys, ws, k, i);
  }

  /** Of two executed nodes at one height, with the higher one on the branch consistent, both are one. */
  lemma SameAtHeight(d1: Hash, d2: Hash, a: Hash, b: Hash)
    requires (Extends(d1, d2) || Extends(d2, d1)) && Extends(d1, a) && Extends(d2, b)
    requires HeightConsistent(a) && HeightConsistent(b)
    requires a.NodeHash? && b.NodeHash? && a.node.height == b.node.height
    ensures a == b
  {
    if Extends(d1, d2) {
      ExtendsTransitive(d1, d2, b);
      AncestorsComparable(d1, a, b);
    } else {
      ExtendsTransitive(d2, d1, a);
      AncestorsComparable(d2, a, b);
    }
    if Extends(a, b) { AncestorHeight(a, b); } else { AncestorHeight(b, a); }
  }

  lemma SameExecutedAt(sys: Sys, ws: seq<World>, k: nat, i: nat, m: nat, j: nat, h: nat)
    requires ValidSys(sys) && IsRun(sys, ws) && k < |ws| && m < |ws|
    requires i in ws[k].reps && i < sys.cfg.n && j in ws[m].reps && j < sys.cfg.n
    requires h < |ws[k].reps[i].exec.executed| && h < |ws[m].reps[j].exec.executed|
    requires HeightConsistent(ws[k].reps[i].exec.executed[h]) && HeightConsistent(ws[m].reps[j].exec.executed[h])
    ensures ws[k].reps[i].exec.executed[h] == ws[m].reps[j].exec.executed[h]
  {
    var a, b := ws[k].reps[i].exec.executed[h], ws[m].reps[j].exec.executed[h];
    ExecutedTrace(sys, ws, k, i);
    ExecutedTrace(sys, ws, m, j);
    assert TracedAt(ws[k].reps[i].core.decided, a, h) && TracedAt(ws[m].reps[j].core.decided, b, h);
    var d1 :| d1 in ws[k].reps[i].core.decided && Extends(d1, a);
    var d2 :| d2 in ws[m].reps[j].core.decided && Extends(d2, b);
    DecidedNeverConflict(sys, ws, k, i, d1, m, j, d2);
    SameAtHeight(d1, d2, a, b);
  }

  /** Replicated execution, exactly: next to a replica that executed only consistent nodes, another
      correct one, at any time, has executed a prefix or an extension of the same sequence if and
      only if what it executed at those heights is consistent too. */
  lemma ReplicatedExecution(sys: Sys, ws: seq<World>, k: nat, i: nat, m: nat, j: nat)
    requires ValidSys(sys) && IsRun(sys, ws) && k < |ws| && m < |ws|
    requires i in ws[k].reps && i < sys.cfg.n && j in ws[m].reps && j < sys.cfg.n
    requires ExecutedConsistent(ws[k].reps[i].exec)
    ensures var a, b := ws[k].reps[i].exec.executed, ws[m].reps[j].exec.executed;
            a <= b || b <= a <==> forall h | 0 <= h < |a| && h < |b| :: HeightConsistent(b[h])
  {
    var a, b := ws[k].reps[i].exec.executed, ws[m].reps[j].exec.executed;
    if forall h | 0 <= h < |a| && h < |b| :: HeightConsistent(b[h]) {
      forall h: nat | h < |a| && h < |b| ensures a[h] == b[h] {
        assert a[h] in a;
        SameExecutedAt(sys, ws, k, i, m, j, h);
      }
    } else {
      var h :| 0 <= h < |a| && h < |b| && !HeightConsistent(b[h]);
      assert a[h] in a;
    }
  }

  /** What was executed lies below what was decided. */
  lemma ExecutedBelowDecided(sys: Sys, ws: seq<World>, k: nat, i: nat)
    requires ValidSys(sys) && IsRun(sys, ws) && k < |ws| && i in ws[k].reps && i < sys.cfg.n
    requires DecidedConsistent(ws[k].reps[i].core.decided)
    ensures ExecutedConsistent(ws[k].reps[i].exec)
  {
    ExecutedTrace(sys, ws, k, i);
    var r := ws[k].reps[i];
    forall h | h in r.exec.executed ensures HeightConsistent(h) {
      var p :| 0 <= p < |r.exec.executed| && r.exec.executed[p] == h;
      assert TracedAt(r.core.decided, h, p);
      var d :| d in r.core.decided && Extends(d, h);
      AncestorHeight(d, h);
    }
  }

  // ----- the backfill pass -----

  lemma {:induction false} RulesOkPrefix(env: Env, r: Replica, rules: seq<Rule>, k: nat)
    requires ValidEnv(env) && RulesOk(env, r, rules) && k <= |rules|
    ensures RulesOk(env, r, rules[..k])
    decreases |rules|
  {
    if k < |rules| {
      var front := rules[..|rules| - 1];
      RulesOkPrefix(env, r, front, k);
      assert front[..k] == rules[..k];
    } else {
      assert rules[..k] == rules;
    }
  }

  /** In the middle of a turn the world is as good as between turns. */
  lemma MidGood(sys: Sys, w: World, i: nat, ev: Event, rules: seq<Rule>, k: nat)
    requires ValidSys(sys) && Good(sys, w) && i in w.reps && i < sys.cfg.n && k <= |rules|
    requires !w.reps[i].exec.panicked && EventOk(w.reps[i], ev) && (ev.Deliver? ==> Deliverable(sys, w, i, ev.msg))
    requires RulesOk(EnvOf(sys, i), Handle(EnvOf(sys, i), w.reps[i], ev), rules)
    ensures Good(sys, Publish(w, i, FireAll(EnvOf(sys, i), Handle(EnvOf(sys, i), w.reps[i], ev), rules[..k])))
  {
    var r0 := Handle(EnvOf(sys, i), w.reps[i], ev);
    EventGood(sys, w, i, ev);
    HandleSigned(EnvOf(sys, i), w.reps[i], ev);
    RulesOkPrefix(EnvOf(sys, i), r0, rules, k);
    RulesGood(sys, w, i, r0, rules[..k]);
  }

  /** The nodes a correct replica saw decided lie on one branch. */
  lemma DecidedBranch(sys: Sys, w: World, i: nat)
    requires ValidSys(sys) && Good(sys, w) && i in w.reps && DecidedConsistent(w.reps[i].core.decided)
    ensures OneDecidedBranch(w.reps[i].core.decided)
  {
    var decided := w.reps[i].core.decided;
    forall a, b | a in decided && b in decided ensures OneBranch(a, b) {
      assert HasCommit(sys.cfg, w.log, a) && HasCommit(sys.cfg, w.log, b);
      var v :| Certified(sys.cfg, w.log, Commit, v, a);
      var u :| Certified(sys.cfg, w.log, Commit, u, b);
      CommitsAgree(sys.cfg, w.log, v, a, u, b);
      CertifiedIsNode(sys, w, v, a);
      CertifiedIsNode(sys, w, u, b);
    }
  }

  lemma BackfillAnyOrder(env: Env, r: Replica, order: seq<Hash>, order': seq<Hash>)
    requires ValidEnv(env) && r.exec.last >= -1 && OneDecidedBranch(r.core.decided)
    requires Enumerates(order, r.core.decided) && Enumerates(order', r.core.decided)
    ensures Fire(env, r, RetryRule(order)) == Fire(env, r, RetryRule(order'))
  {
    assert OneChain(order);
    RetryOrderIndependent(env, r.core.tree, r.exec, order, order');
  }

  /** The replica as the backfill pass of a turn finds it: after the event and eight rules. */
  function BeforeBackfill(env: Env, r: Replica, ev: Event, rules: seq<Rule>): Replica
    requires ValidEnv(env) && EventOk(r, ev) && |rules| >= 8
  {
    FireAll(env, Handle(env, r, ev), rules[..8])
  }

  /** In every turn of every run, the backfill pass gives one result for all iteration orders of the
      decided set. */
  lemma BackfillOrderIndependent(sys: Sys, ws: seq<World>, k: nat, i: nat,
                                 ev: Event, rules: seq<Rule>, r': Replica, order: seq<Hash>)
    requires ValidSys(sys) && IsRun(sys, ws) && k < |ws| && i in ws[k].reps && i < sys.cfg.n
    requires (ev.Deliver? ==> HasReplicas(sys, ws[k]) && Deliverable(sys, ws[k], i, ev.msg))
    requires IsPass(rules) && Turn(EnvOf(sys, i), ws[k].reps[i], ev, rules, r')
    requires var mid := BeforeBackfill(EnvOf(sys, i), ws[k].reps[i], ev, rules);
             DecidedConsistent(mid.core.decided) && Enumerates(order, mid.core.decided)
    ensures var env := EnvOf(sys, i);
            var mid := BeforeBackfill(env, ws[k].reps[i], ev, rules);
            Fire(env, mid, rules[8]) == Fire(env, mid, RetryRule(order))
  {
    var env, r := EnvOf(sys, i), ws[k].reps[i];
    var mid := BeforeBackfill(env, r, ev, rules);
    var w' := Publish(ws[k], i, mid);
    RunGood(sys, ws, k);
    MidGood(sys, ws[k], i, ev, rules, 8);
    DecidedBranch(sys, w', i);
    RuleOkAt(env, Handle(env, r, ev), rules, 8);
    assert NodeOk(EnvOf(sys, i), w'.reps[i]);
    BackfillAnyOrder(env, mid, rules[8].order, order);
  }

  /** Votes are only ever cast for proposed nodes, so genesis is never certified. */
  lemma CertifiedIsNode(sys: Sys, w: World, v: nat, h: Hash)
    requires ValidSys(sys) && HasReplicas(sys, w) && LogOk(sys.cfg, w.log) && Certified(sys.cfg, w.log, Commit, v, h)
    requires forall b | b in w.log :: VotedProposal(w, b)
    ensures h.NodeHash?
  {
    var p := CertifiedPrepare(sys.cfg, w.log, Commit, v, h);
    var s := CorrectSupporter(sys.cfg, w.log[..p], Prepare, v, h);
    assert VotedProposal(w, Ballot(s, Prepare, v, h));
  }

  // ----- state and roots -----

  /** A re-executing replica that executed only consistent nodes: its live state is the plain fold
      of the blocks, and so is every cached or queued state of a consistent node above it, whatever
      else faulty leaders put into its tree. */
  lemma ReexecutionCorrect(sys: Sys, ws: seq<World>, k: nat, i: nat)
    requires ValidSys(sys) && IsRun(sys, ws) && k < |ws| && i in ws[k].reps && i < sys.cfg.n
    requires sys.modes(i) == Reexecute && ExecutedConsistent(ws[k].reps[i].exec)
    ensures CacheOk(EnvOf(sys, i), ws[k].reps[i].exec)
  {
    RunNode(sys, ws, k, i);
  }

  /** In every run, whatever the proofs: a verifying replica's chained root is the post-root that the
      proof of its last executed height claims. */
  lemma ChainedIsClaimed(sys: Sys, ws: seq<World>, k: nat, i: nat)
    requires ValidSys(sys) && IsRun(sys, ws) && k < |ws| && i in ws[k].reps && i < sys.cfg.n
    requires sys.modes(i) == Verify
    ensures ClaimedRoot(EnvOf(sys, i), ws[k].reps[i].exec.last, ws[k].reps[i].exec.chained)
  {
    RunNode(sys, ws, k, i);
  }

  /** Sound proofs over accounts that genesis has, the first with the right post-root. */
  ghost predicate RightProofs(env: Env) {
    DenseWorkload(env) && SoundProofs(env) && FirstClaimRight(env)
  }

  lemma RootOf(env: Env, roots: nat -> Digest, ex: Exec)
    requires RootsOk(env, roots, ex)
    ensures RootReached(roots, ex.last, ex.chained)
  {
  }

  lemma VerifierSound(env: Env, ex: Exec)
    requires env.mode == Verify && CachesOk(env, ex) && RightProofs(env)
    ensures RootsOk(env, FoldRoot(env), ex)
  {
    SoundProofsLink(env);
  }

  lemma VerifierCorrect(env: Env, ex: Exec)
    requires env.mode == Verify && CachesOk(env, ex) && RightProofs(env)
    ensures RootReached(FoldRoot(env), ex.last, ex.chained)
  {
    VerifierSound(env, ex);
    RootOf(env, FoldRoot(env), ex);
  }

  /** A verifying replica with sound proofs, the first with the right post-root: its chained root is
      the root of the plain fold at every height it reaches. */
  lemma VerificationCorrect(sys: Sys, ws: seq<World>, k: nat, i: nat)
    requires ValidSys(sys) && IsRun(sys, ws) && k < |ws| && i in ws[k].reps && i < sys.cfg.n
    requires sys.modes(i) == Verify && RightProofs(EnvOf(sys, i))
    ensures RootReached(FoldRoot(EnvOf(sys, i)), ws[k].reps[i].exec.last, ws[k].reps[i].exec.chained)
  {
    RunNode(sys, ws, k, i);
    VerifierCorrect(EnvOf(sys, i), ws[k].reps[i].exec);
  }

  lemma FirstRootExact(env: Env, chained: Digest)
    requires ClaimedRoot(env, 0, chained)
    ensures chained == RootOrZero(Fold(env, 1)) <==> FirstClaimRight(env)
  {
  }

  /** And the condition is exact: after the first block the root is right if and only if the first
      proof claims the right post-root. */
  lemma FirstVerifiedRoot(sys: Sys, ws: seq<World>, k: nat, i: nat)
    requires ValidSys(sys) && IsRun(sys, ws) && k < |ws| && i in ws[k].reps && i < sys.cfg.n
    requires sys.modes(i) == Verify && ws[k].reps[i].exec.last == 0
    ensures ws[k].reps[i].exec.chained == RootOrZero(Fold(EnvOf(sys, i), 1)) <==> FirstClaimRight(EnvOf(sys, i))
  {
    ChainedIsClaimed(sys, ws, k, i);
    FirstRootExact(EnvOf(sys, i), ws[k].reps[i].exec.chained);
  }

  /** In particular the root is right when the first proof starts at genesis. */
  lemma VerificationFromGenesis(sys: Sys, ws: seq<World>, k: nat, i: nat)
    requires ValidSys(sys) && IsRun(sys, ws) && k < |ws| && i in ws[k].reps && i < sys.cfg.n
    requires sys.modes(i) == Verify && DenseWorkload(EnvOf(sys, i))
    requires SoundProofs(EnvOf(sys, i)) && FromGenesis(EnvOf(sys, i))
    ensures RootReached(FoldRoot(EnvOf(sys, i)), ws[k].reps[i].exec.last, ws[k].reps[i].exec.chained)
  {
    GenesisClaimsRight(EnvOf(sys, i));
    VerificationCorrect(sys, ws, k, i);
  }

  lemma {:induction false} FoldShared(env: Env, env': Env, k: nat)
    requires env.blocks == env'.blocks && env.genesis == env'.genesis
    ensures Fold(env, k) == Fold(env', k)
  {
    if k > 0 {
      FoldShared(env, env', k - 1);
    }
  }

  lemma SameRoot(env: Env, env': Env, h: nat)
    requires env.blocks == env'.blocks && env.genesis == env'.genesis && DenseWorkload(env)
    ensures Dense(Fold(env', h)) && FoldRoot(env)(h) == Root(Fold(env', h))
  {
    FoldShared(env, env', h);
    FoldDense(env, h);
  }

  lemma SameRootReached(env: Env, env': Env, last: int, chained: Digest, live: State)
    requires env.blocks == env'.blocks && env.genesis == env'.genesis && DenseWorkload(env) && last >= 0
    requires RootReached(FoldRoot(env), last, chained) && live == Fold(env', last + 1)
    ensures Dense(live) && chained == Root(live)
  {
    SameRoot(env, env', last + 1);
  }

  /** Proof verification refines re-execution: at equal height the verifier's chained root is the
      state root of the re-executing replica's live state. */
  lemma VerificationRefinesReexecution(sys: Sys, ws: seq<World>, k: nat, i: nat, m: nat, j: nat)
    requires ValidSys(sys) && IsRun(sys, ws) && k < |ws| && m < |ws|
    requires i in ws[k].reps && i < sys.cfg.n && j in ws[m].reps && j < sys.cfg.n
    requires sys.modes(i) == Verify && RightProofs(EnvOf(sys, i))
    requires sys.modes(j) == Reexecute && ExecutedConsistent(ws[m].reps[j].exec)
    requires ws[k].reps[i].exec.last == ws[m].reps[j].exec.last >= 0
    ensures Dense(ws[m].reps[j].exec.live) && ws[k].reps[i].exec.chained == Root(ws[m].reps[j].exec.live)
  {
    VerificationCorrect(sys, ws, k, i);
    ReexecutionCorrect(sys, ws, m, j);
    var ex, ex' := ws[k].reps[i].exec, ws[m].reps[j].exec;
    SameRootReached(EnvOf(sys, i), EnvOf(sys, j), ex.last, ex.chained, ex'.live);
  }

  /** The blocks are those of the workload generator and their proofs carry its commits. */
  ghost predicate GeneratedBlocks(env: Env, p: Params) {
    && ValidParams(p) && env.genesis == GenesisState(p.accounts, p.balance)
    && forall k: nat :: GeneratedAt(env, p, k)
  }

  ghost predicate GeneratedAt(env: Env, p: Params, k: nat)
    requires ValidParams(p)
  {
    env.blocks(k).txs == BlockTxs(p, k) && (env.blocks(k).proof.Some? ==> env.blocks(k).proof.value == Meta(p, k))
  }

  lemma {:induction false} GeneratedFold(env: Env, p: Params, k: nat)
    requires GeneratedBlocks(env, p)
    ensures Fold(env, k) == Before(p, k).state
  {
    if k > 0 {
      GeneratedFold(env, p, k - 1);
      assert GeneratedAt(env, p, k - 1);
    }
  }

  lemma {:induction false} GeneratedWidth(p: Params, k: nat)
    requires ValidParams(p)
    ensures Width(Before(p, k).state) == Width(GenesisState(p.accounts, p.balance))
  {
    if k > 0 {
      GeneratedWidth(p, k - 1);
      WorkloadDense(p, k - 1);
      BlockKeepsWidth(Before(p, k - 1).state, BlockTxs(p, k - 1));
    }
  }

  lemma GeneratedDense(env: Env, p: Params, k: nat)
    requires GeneratedBlocks(env, p)
    ensures DenseAt(env, k)
  {
    assert GeneratedAt(env, p, k);
    WorkloadDense(p, k);
    GeneratedWidth(p, k);
  }

  lemma GeneratedAttested(env: Env, p: Params, k: nat)
    requires GeneratedBlocks(env, p) && env.blocks(k).proof.Some?
    ensures AttestedFrom(env, k, Before(p, k).state)
    ensures env.blocks(k).proof.value.pre == RootOrZero(Fold(env, k))
  {
    assert GeneratedAt(env, p, k);
    WorkloadDense(p, k);
    WorkloadDense(p, k + 1);
    GeneratedFold(env, p, k);
  }

  /** The generator's own workload meets every hypothesis on proofs. */
  lemma GeneratedSound(env: Env, p: Params)
    requires GeneratedBlocks(env, p)
    ensures RightProofs(env) && PreLinked(env, FoldRoot(env))
  {
    GeneratedFromGenesis(env, p);
    GenesisClaimsRight(env);
  }

  lemma GeneratedFromGenesis(env: Env, p: Params)
    requires GeneratedBlocks(env, p)
    ensures DenseWorkload(env) && SoundProofs(env) && FromGenesis(env) && PreLinked(env, FoldRoot(env))
  {
    WorkloadDense(p, 0);
    forall k: nat ensures DenseAt(env, k) && SoundAt(env, k) && PreLinkAt(env, FoldRoot(env), k) {
      GeneratedDense(env, p, k);
      if env.blocks(k).proof.Some? { GeneratedAttested(env, p, k); }
    }
    if env.blocks(0).proof.Some? { GeneratedAttested(env, p, 0); }
  }

  // ----- when a replica aborts -----

  lemma NoBreakPossible(env: Env, tree: Tree, decided: set<Hash>, ex: Exec)
    requires HaltOk(env, tree, decided, ex) && RootsOk(env, FoldRoot(env), ex) && PreLinked(env, FoldRoot(env))
    ensures ex.panicked ==> !TreeInRange(env, tree)
  {
    if h :| h in tree && Ready(tree, ex, h) && ChainBreak(tree, ex, h) {
      PreLinkedHolds(env, FoldRoot(env), tree, ex, h);
    }
  }

  /** On a generated workload a verifying replica never hits a chain break: it aborts only on a
      proposal for a block outside the workload. */
  lemma GeneratedNeverBreaks(sys: Sys, ws: seq<World>, k: nat, i: nat, p: Params)
    requires ValidSys(sys) && IsRun(sys, ws) && k < |ws| && i in ws[k].reps && i < sys.cfg.n
    requires sys.modes(i) == Verify && GeneratedBlocks(EnvOf(sys, i), p)
    ensures ws[k].reps[i].exec.panicked <==> !TreeInRange(EnvOf(sys, i), ws[k].reps[i].core.tree)
  {
    var env, r := EnvOf(sys, i), ws[k].reps[i];
    RunNode(sys, ws, k, i);
    GeneratedSound(env, p);
    VerifierSound(env, r.exec);
    NoBreakPossible(env, r.core.tree, r.core.decided, r.exec);
  }

  /** A re-executing replica aborts only on such a proposal, on any workload. */
  lemma ReexecutionNeverBreaks(sys: Sys, ws: seq<World>, k: nat, i: nat)
    requires ValidSys(sys) && IsRun(sys, ws) && k < |ws| && i in ws[k].reps && i < sys.cfg.n
    requires sys.modes(i) == Reexecute
    ensures ws[k].reps[i].exec.panicked <==> !TreeInRange(EnvOf(sys, i), ws[k].reps[i].core.tree)
  {
    RunNode(sys, ws, k, i);
  }

  /** Exactly when a correct replica has aborted: it knows a block outside the workload, or a branch
      it saw decided breaks the chain of roots at its next node. */
  lemma AbortsExactly(sys: Sys, ws: seq<World>, k: nat, i: nat)
    requires ValidSys(sys) && IsRun(sys, ws) && k < |ws| && Correct(sys.cfg, i) && i in ws[k].reps
    requires DecidedConsistent(ws[k].reps[i].core.decided)
    ensures ws[k].reps[i].exec.panicked
       <==> || !TreeInRange(EnvOf(sys, i), ws[k].reps[i].core.tree)
            || ChainBroken(ws[k].reps[i].core.tree, ws[k].reps[i].core.decided, ws[k].reps[i].exec)
  {
    RunGood(sys, ws, k);
    NothingLeftBehind(sys, ws, k, i);
    DecidedBranch(sys, ws[k], i);
    assert NodeOk(EnvOf(sys, i), ws[k].reps[i]);
    HaltedIff(EnvOf(sys, i), ws[k].reps[i]);
  }

  /** In every run an event aborts a running replica exactly when it is a proposal that passes the
      handler's checks for a block outside the workload. */
  lemma EventAbortsExactly(sys: Sys, ws: seq<World>, k: nat, i: nat, ev: Event)
    requires ValidSys(sys) && IsRun(sys, ws) && k < |ws| && i in ws[k].reps && i < sys.cfg.n
    requires !ws[k].reps[i].exec.panicked && EventOk(ws[k].reps[i], ev)
    ensures Handle(EnvOf(sys, i), ws[k].reps[i], ev).exec.panicked <==> ForeignProposal(EnvOf(sys, i), ev)
  {
    RunNode(sys, ws, k, i);
    EventHalts(EnvOf(sys, i), ws[k].reps[i], ev);
  }

  /** Such a proposal can arrive at once: a faulty leader of view 1 can send it to every replica. */
  lemma ForeignProposalArrives(sys: Sys, w: World, leader: nat, cmd: Digest, i: nat)
    requires ValidSys(sys) && Init(sys, w) && leader == Leader(sys.cfg.n, 1) && leader in sys.cfg.faulty
    requires i in w.reps && i < sys.cfg.n
    ensures var msg := Proposal(1, Node(Genesis, cmd, sys.numBlocks), None, leader);
            && Deliverable(sys, w, i, msg) && ForeignProposal(EnvOf(sys, i), Deliver(msg))
            && Handle(EnvOf(sys, i), w.reps[i], Deliver(msg)).exec.panicked
  {
    StartAborts(sys, w, i, Deliver(Proposal(1, Node(Genesis, cmd, sys.numBlocks), None, leader)));
  }

  lemma StartAborts(sys: Sys, w: World, i: nat, ev: Event)
    requires ValidSys(sys) && Init(sys, w) && i in w.reps && i < sys.cfg.n && ForeignProposal(EnvOf(sys, i), ev)
    ensures Handle(EnvOf(sys, i), w.reps[i], ev).exec.panicked
  {
    StartNode(EnvOf(sys, i));
    EventHalts(EnvOf(sys, i), w.reps[i], ev);
  }

  // ----- progress-shaped safety -----

  lemma StepCaughtUp(sys: Sys, w: World, w': World, i: nat)
    requires ValidSys(sys) && HasReplicas(sys, w) && Step(sys, w, w') && i in w.reps
    requires w.reps[i].exec.last >= -1 && CaughtUp(EnvOf(sys, i), w.reps[i])
    ensures i in w'.reps && CaughtUp(EnvOf(sys, i), w'.reps[i])
  {
    var j, ev: Event, rules: seq<Rule>, r': Replica :|
      && j in w.reps
      && (ev.Deliver? ==> Deliverable(sys, w, j, ev.msg))
      && Turn(EnvOf(sys, j), w.reps[j], ev, rules, r')
      && w' == Publish(w, j, r');
    if i == j {
      TurnCatchesUp(EnvOf(sys, i), w.reps[i], ev, rules, r');
    }
  }

  lemma RunStepCaughtUp(sys: Sys, ws: seq<World>, k: nat, i: nat)
    requires ValidSys(sys) && IsRun(sys, ws) && k + 1 < |ws| && i in ws[k].reps && i < sys.cfg.n
    requires CaughtUp(EnvOf(sys, i), ws[k].reps[i])
    ensures i in ws[k + 1].reps && CaughtUp(EnvOf(sys, i), ws[k + 1].reps[i])
  {
    assert StepAt(sys, ws, k);
    ExecutedTrace(sys, ws, k, i);
    StepCaughtUp(sys, ws[k], ws[k + 1], i);
  }

  /** Between turns nothing is left behind: what can be executed is executed, and while no
      validation is pending no known node waits for one that could start. */
  lemma NothingLeftBehind(sys: Sys, ws: seq<World>, k: nat, i: nat)
    requires ValidSys(sys) && IsRun(sys, ws) && k < |ws| && Correct(sys.cfg, i)
    ensures i in ws[k].reps && CaughtUp(EnvOf(sys, i), ws[k].reps[i])
  {
    for j := 0 to k
      invariant i in ws[j].reps && CaughtUp(EnvOf(sys, i), ws[j].reps[i])
    {
      RunStepCaughtUp(sys, ws, j, i);
    }
  }

  lemma StepAsks(sys: Sys, w: World, w': World, i: nat)
    requires ValidSys(sys) && HasReplicas(sys, w) && Step(sys, w, w') && i in w.reps
    ensures i in w'.reps
    ensures var q, ex' := w.reps[i].exec.requests, w'.reps[i].exec;
            QueuedFresh(q, ex') || (q != [] && QueuedFresh(q[1..], ex'))
  {
    var j, ev: Event, rules: seq<Rule>, r': Replica :|
      && j in w.reps
      && (ev.Deliver? ==> Deliverable(sys, w, j, ev.msg))
      && Turn(EnvOf(sys, j), w.reps[j], ev, rules, r')
      && w' == Publish(w, j, r');
    if i == j {
      TurnAsks(EnvOf(sys, i), w.reps[i], ev, rules, r');
    }
  }

  /** No cached node is asked for again: every request queued during a step is for a node whose
      result is not known after it, and nothing but the oldest request left the queue. */
  lemma NoCachedRequest(sys: Sys, ws: seq<World>, k: nat, i: nat)
    requires ValidSys(sys) && IsRun(sys, ws) && k + 1 < |ws| && i in ws[k].reps
    ensures i in ws[k + 1].reps
    ensures var q, ex' := ws[k].reps[i].exec.requests, ws[k + 1].reps[i].exec;
            QueuedFresh(q, ex') || (q != [] && QueuedFresh(q[1..], ex'))
  {
    assert StepAt(sys, ws, k);
    StepAsks(sys, ws[k], ws[k + 1], i);
  }

  /** A pending validation is always still queued at the worker. */
  lemma GateNeverWedges(sys: Sys, ws: seq<World>, k: nat, i: nat)
    requires ValidSys(sys) && IsRun(sys, ws) && k < |ws| && i in ws[k].reps && i < sys.cfg.n
    ensures GateOk(ws[k].reps[i].exec)
  {
    RunNode(sys, ws, k, i);
  }

  /** Views are entered one by one, with the timeout given by the backoff rule. */
  lemma PaceInRuns(sys: Sys, ws: seq<World>, k: nat, i: nat)
    requires ValidSys(sys) && IsRun(sys, ws) && k < |ws| && i in ws[k].reps && i < sys.cfg.n
    ensures PaceOk(EnvOf(sys, i), ws[k].reps[i])
  {
    RunNode(sys, ws, k, i);
  }

  ghost predicate Armed(r: Replica) {
    r.exec.panicked || r.core.view in r.io.timers
  }

  lemma StepArmed(sys: Sys, w: World, w': World, i: nat)
    requires ValidSys(sys) && HasReplicas(sys, w) && Step(sys, w, w') && i in w.reps
    requires PaceOk(EnvOf(sys, i), w.reps[i]) && Awake(w.reps[i]) && Armed(w.reps[i])
    ensures i in w'.reps && Armed(w'.reps[i])
  {
    var j, ev: Event, rules: seq<Rule>, r': Replica :|
      && j in w.reps
      && (ev.Deliver? ==> Deliverable(sys, w, j, ev.msg))
      && Turn(EnvOf(sys, j), w.reps[j], ev, rules, r')
      && w' == Publish(w, j, r');
    if i == j {
      TurnKeepsTimer(EnvOf(sys, i), w.reps[i], ev, rules, r');
    }
  }

  lemma RunArmed(sys: Sys, ws: seq<World>, k: nat, i: nat)
    requires ValidSys(sys) && IsRun(sys, ws) && k + 1 < |ws| && i in ws[k].reps && Armed(ws[k].reps[i])
    ensures i in ws[k + 1].reps && Armed(ws[k + 1].reps[i])
  {
    assert StepAt(sys, ws, k);
    RunNode(sys, ws, k, i);
    StepArmed(sys, ws[k], ws[k + 1], i);
  }

  lemma StartArmed(sys: Sys, w: World, i: nat)
    requires ValidSys(sys) && Init(sys, w) && Correct(sys.cfg, i)
    ensures i in w.reps && Armed(w.reps[i])
  {
    StartPace(EnvOf(sys, i));
  }

  /** No replica is stranded: between turns every correct replica has an unfired timer for its
      current view, unless it knows a block outside the workload or stands before a chain break. */
  lemma NeverStranded(sys: Sys, ws: seq<World>, k: nat, i: nat)
    requires ValidSys(sys) && IsRun(sys, ws) && k < |ws| && Correct(sys.cfg, i)
    ensures i in ws[k].reps
    ensures var r := ws[k].reps[i];
            || r.core.view in r.io.timers
            || !TreeInRange(EnvOf(sys, i), r.core.tree) || Breakable(r.core.tree, r.exec)
  {
    RunTimers(sys, ws, k, i);
    RunNode(sys, ws, k, i);
  }

  lemma RunTimers(sys: Sys, ws: seq<World>, k: nat, i: nat)
    requires ValidSys(sys) && IsRun(sys, ws) && k < |ws| && Correct(sys.cfg, i)
    ensures i in ws[k].reps && Armed(ws[k].reps[i])
  {
    StartArmed(sys, ws[0], i);
    for j := 0 to k
      invariant i in ws[j].reps && Armed(ws[j].reps[i])
    {
      RunArmed(sys, ws, j, i);
    }
  }

  // ----- runs without lied heights -----

  /** If faulty leaders' proposals that arrive have true heights, then so has every tree, and every
      decided branch is consistent. */
  lemma HonestHeightsHold(sys: Sys, range: bool, ws: seq<World>, k: nat, i: nat)
    requires ValidSys(sys) && HonestRun(sys, range, ws) && k < |ws| && i in ws[k].reps
    ensures TreeTrue(sys.numBlocks, range, ws[k].reps[i].core.tree) && DecidedConsistent(ws[k].reps[i].core.decided)
  {
    HonestIsRun(sys, range, ws);
    RunGood(sys, ws, k);
    RunTrue(sys, range, ws, k);
    DecidedTrue(sys, range, ws[k], i);
  }

  lemma HonestExecuted(sys: Sys, range: bool, ws: seq<World>, k: nat, i: nat)
    requires ValidSys(sys) && HonestRun(sys, range, ws) && k < |ws| && i in ws[k].reps && i < sys.cfg.n
    ensures IsRun(sys, ws) && ExecutedConsistent(ws[k].reps[i].exec)
  {
    HonestIsRun(sys, range, ws);
    HonestHeightsHold(sys, range, ws, k, i);
    ExecutedBelowDecided(sys, ws, k, i);
  }

  /** Then any two correct replicas have executed prefixes of one sequence. */
  lemma HonestReplicatedExecution(sys: Sys, range: bool, ws: seq<World>, k: nat, i: nat, m: nat, j: nat)
    requires ValidSys(sys) && HonestRun(sys, range, ws) && k < |ws| && m < |ws|
    requires i in ws[k].reps && i < sys.cfg.n && j in ws[m].reps && j < sys.cfg.n
    ensures ws[k].reps[i].exec.executed <= ws[m].reps[j].exec.executed
         || ws[m].reps[j].exec.executed <= ws[k].reps[i].exec.executed
  {
    HonestExecuted(sys, range, ws, k, i);
    HonestExecuted(sys, range, ws, m, j);
    ReplicatedExecution(sys, ws, k, i, m, j);
  }

  /** Then every re-executing replica holds the plain fold of the blocks. */
  lemma HonestReexecution(sys: Sys, range: bool, ws: seq<World>, k: nat, i: nat)
    requires ValidSys(sys) && HonestRun(sys, range, ws) && k < |ws| && i in ws[k].reps && i < sys.cfg.n
    requires sys.modes(i) == Reexecute
    ensures CacheOk(EnvOf(sys, i), ws[k].reps[i].exec)
  {
    HonestExecuted(sys, range, ws, k, i);
    ReexecutionCorrect(sys, ws, k, i);
  }

  /** Then every backfill pass gives one result for all iteration orders. */
  lemma HonestBackfill(sys: Sys, range: bool, ws: seq<World>, k: nat, i: nat,
                       ev: Event, rules: seq<Rule>, r': Replica, order: seq<Hash>)
    requires ValidSys(sys) && HonestRun(sys, range, ws) && k < |ws| && i in ws[k].reps && i < sys.cfg.n
    requires HasReplicas(sys, ws[k]) && (ev.Deliver? ==> Deliverable(sys, ws[k], i, ev.msg))
    requires HonestHeight(sys, range, ev)
    requires IsPass(rules) && Turn(EnvOf(sys, i), ws[k].reps[i], ev, rules, r')
    requires Enumerates(order, BeforeBackfill(EnvOf(sys, i), ws[k].reps[i], ev, rules).core.decided)
    ensures var env := EnvOf(sys, i);
            var mid := BeforeBackfill(env, ws[k].reps[i], ev, rules);
            Fire(env, mid, rules[8]) == Fire(env, mid, RetryRule(order))
  {
    var mid := BeforeBackfill(EnvOf(sys, i), ws[k].reps[i], ev, rules);
    HonestIsRun(sys, range, ws);
    RunGood(sys, ws, k);
    MidGood(sys, ws[k], i, ev, rules, 8);
    RunTrue(sys, range, ws, k);
    PartTrue(sys, range, ws[k], i, ev, rules[..8]);
    DecidedTrue(sys, range, Publish(ws[k], i, mid), i);
    BackfillOrderIndependent(sys, ws, k, i, ev, rules, r', order);
  }

  /** Without faulty replicas no hypothesis on heights is left: executions are prefixes of one
      another, and a re-executing replica holds the plain fold and never aborts. */
  lemma FaultFreeExecution(sys: Sys, ws: seq<World>, k: nat, i: nat, m: nat, j: nat)
    requires ValidSys(sys) && IsRun(sys, ws) && sys.cfg.faulty == {} && k < |ws| && m < |ws|
    requires i in ws[k].reps && i < sys.cfg.n && j in ws[m].reps && j < sys.cfg.n
    ensures ws[k].reps[i].exec.executed <= ws[m].reps[j].exec.executed
         || ws[m].reps[j].exec.executed <= ws[k].reps[i].exec.executed
    ensures sys.modes(i) == Reexecute ==> CacheOk(EnvOf(sys, i), ws[k].reps[i].exec) && !ws[k].reps[i].exec.panicked
  {
    FaultFreeIsHonest(sys, ws);
    HonestReplicatedExecution(sys, true, ws, k, i, m, j);
    if sys.modes(i) == Reexecute {
      HonestReexecution(sys, true, ws, k, i);
      HonestHeightsHold(sys, true, ws, k, i);
      ReexecutionNeverBreaks(sys, ws, k, i);
    }
  }
}
