/** Whole runs: every event, rule, turn and step keeps all invariants, so every reachable world
    satisfies them. */
module Runs {
  import opened Messages
  import opened Ancestry
  import opened Execution
  import opened ExecutionProofs
  import opened Replicas
  import opened Systems
  import opened Safety
  import SafetySteps
  import opened Proposals
  import ProposalSteps
  import opened Pacemaker
  import opened Duties
  import opened Halting

  // ----- invariants of one node -----

  ghost predicate ExecOk(env: Env, r: Replica) {
    TraceOk(r.core.decided, r.exec) && CachesOk(env, r.exec)
  }

  ghost predicate NodeOk(env: Env, r: Replica)
    requires ValidEnv(env)
  {
    ExecOk(env, r) && ReplicaHaltOk(env, r) && VotedKnown(env, r) && PaceOk(env, r) && Awake(r) && DutiesOk(env, r)
  }

  lemma TraceGrows(decided: set<Hash>, decided': set<Hash>, ex: Exec)
    requires TraceOk(decided, ex) && decided <= decided'
    ensures TraceOk(decided', ex)
  {
    forall k | 0 <= k < |ex.executed| ensures TracedAt(decided', ex.executed[k], k) {
      assert TracedAt(decided, ex.executed[k], k);
    }
  }

  lemma KickExec(env: Env, r: Replica, tree': Tree, h: Hash)
    requires ExecOk(env, r)
    ensures TraceOk(r.core.decided, MaybeKick(env, tree', r.exec, h))
    ensures CachesOk(env, MaybeKick(env, tree', r.exec, h))
  {
    KickCaches(env, tree', r.exec, h);
  }

  lemma MessageExec(env: Env, r: Replica, msg: Wire)
    requires ValidEnv(env) && ExecOk(env, r)
    ensures ExecOk(env, HandleMsg(env, r, msg))
  {
    match msg
    case Proposal(_, node, _, _) => KickExec(env, r, r.core.tree[NodeHash(node) := node], NodeHash(node));
    case PhaseQc(_, _, cert, _) => TraceGrows(r.core.decided, r.core.decided + {cert.node}, r.exec);
    case _ =>
  }

  lemma EventExec(env: Env, r: Replica, ev: Event)
    requires ValidEnv(env) && ExecOk(env, r) && EventOk(r, ev)
    ensures ExecOk(env, Handle(env, r, ev))
  {
    match ev
    case Deliver(msg) => MessageExec(env, r, msg);
    case ValidationDone(readable) => ValidatedCaches(env, r.exec, readable);
    case _ =>
  }

  lemma DecideExec(env: Env, r: Replica)
    requires ValidEnv(env) && ExecOk(env, r)
    ensures ExecOk(env, ReplicaDecide(env, r))
  {
    var v := r.core.view;
    if Decide in Vd(r.core, v).seen && (Decide, v) in r.core.staged {
      var h := r.core.staged[(Decide, v)].node;
      TraceGrows(r.core.decided, r.core.decided + {h}, r.exec);
      TryExecuteTrace(env, r.core.tree, r.exec, r.core.decided + {h}, h);
      RunChainCaches(env, r.core.tree, r.exec, Chain(r.core.tree, r.exec.last, h));
    }
  }

  lemma ProposeExec(env: Env, r: Replica, high: Option<QC>)
    requires ValidEnv(env) && ExecOk(env, r)
    ensures ExecOk(env, LeaderPrepare(env, r, high))
  {
    var height := NextHeight(r.core.tree, high);
    if height.Some? {
      var leaf := Node(JustifiedNode(high), env.blocks(height.value).cmd, height.value);
      KickExec(env, r, r.core.tree[NodeHash(leaf) := leaf], NodeHash(leaf));
    }
  }

  lemma RetryExec(env: Env, r: Replica, order: seq<Hash>)
    requires ExecOk(env, r) && Enumerates(order, r.core.decided)
    ensures ExecOk(env, r.(exec := RetryPending(env, r.core.tree, r.exec, order)))
  {
    RetryTrace(env, r.core.tree, r.exec, order, r.core.decided);
    RetryCaches(env, r.core.tree, r.exec, order);
  }

  lemma KickAllExec(env: Env, r: Replica, order: seq<Hash>)
    requires ExecOk(env, r)
    ensures ExecOk(env, r.(exec := KickPending(env, r.core.tree, r.exec, order)))
  {
    KickPendingTrace(env, r.core.tree, r.exec, order, r.core.decided);
    KickPendingCaches(env, r.core.tree, r.exec, order);
  }

  lemma RuleExec(env: Env, r: Replica, rule: Rule)
    requires ValidEnv(env) && ExecOk(env, r) && RuleOk(env, r, rule)
    ensures ExecOk(env, Fire(env, r, rule))
  {
    if !r.exec.panicked {
      match rule
      case ProposeRule(high) => ProposeExec(env, r, high);
      case DecideRule => DecideExec(env, r);
      case RetryRule(order) => RetryExec(env, r, order);
      case KickRule(order) => KickAllExec(env, r, order);
      case _ => VoteQuiet(env, r, rule);
    }
  }

  /** True results are for blocks of the workload, with proofs where the node verifies. */
  lemma TrueResults(env: Env, r: Replica)
    requires ExecOk(env, r) && ReplicaHaltOk(env, r)
    ensures ResultsVouched(env, r.exec)
  {
  }

  lemma EventNode(env: Env, r: Replica, ev: Event)
    requires ValidEnv(env) && NodeOk(env, r) && !r.exec.panicked && EventOk(r, ev)
    ensures NodeOk(env, Handle(env, r, ev))
  {
    EventExec(env, r, ev);
    EventHalts(env, r, ev);
    EventKnown(env, r, ev);
    EventPace(env, r, ev);
    EventDuties(env, r, ev);
  }

  lemma RuleNode(env: Env, r: Replica, rule: Rule)
    requires ValidEnv(env) && env.base <= U64_MAX && NodeOk(env, r) && RuleOk(env, r, rule)
    ensures NodeOk(env, Fire(env, r, rule))
  {
    RuleExec(env, r, rule);
    RuleHalts(env, r, rule);
    TrueResults(env, r);
    RuleKnown(env, r, rule);
    RulePace(env, r, rule);
    RuleDuties(env, r, rule);
  }

  // ----- invariants of a world -----

  ghost predicate NodesOk(sys: Sys, w: World)
    requires ValidSys(sys) && HasReplicas(sys, w)
  {
    forall i | i in w.reps :: NodeOk(EnvOf(sys, i), w.reps[i])
  }

  ghost predicate Good(sys: Sys, w: World)
    requires ValidSys(sys)
  {
    Inv(sys, w) && ProposalInv(sys, w) && NodesOk(sys, w)
  }

  lemma AdoptNode(sys: Sys, w: World, i: nat, r': Replica)
    requires ValidSys(sys) && HasReplicas(sys, w) && NodesOk(sys, w) && i in w.reps && NodeOk(EnvOf(sys, i), r')
    ensures HasReplicas(sys, Publish(w, i, r')) && NodesOk(sys, Publish(w, i, r'))
  {
    var w' := Publish(w, i, r');
    forall j | j in w'.reps ensures NodeOk(EnvOf(sys, j), w'.reps[j]) {
      if j != i { assert NodeOk(EnvOf(sys, j), w.reps[j]); }
    }
  }

  lemma EventNodes(sys: Sys, w: World, i: nat, ev: Event)
    requires ValidSys(sys) && HasReplicas(sys, w) && NodesOk(sys, w) && i in w.reps
    requires !w.reps[i].exec.panicked && EventOk(w.reps[i], ev)
    ensures HasReplicas(sys, Publish(w, i, Handle(EnvOf(sys, i), w.reps[i], ev)))
    ensures NodesOk(sys, Publish(w, i, Handle(EnvOf(sys, i), w.reps[i], ev)))
  {
    EventNode(EnvOf(sys, i), w.reps[i], ev);
    AdoptNode(sys, w, i, Handle(EnvOf(sys, i), w.reps[i], ev));
  }

  lemma RuleNodes(sys: Sys, w: World, i: nat, rule: Rule)
    requires ValidSys(sys) && HasReplicas(sys, w) && NodesOk(sys, w) && i in w.reps
    requires RuleOk(EnvOf(sys, i), w.reps[i], rule)
    ensures HasReplicas(sys, Publish(w, i, Fire(EnvOf(sys, i), w.reps[i], rule)))
    ensures NodesOk(sys, Publish(w, i, Fire(EnvOf(sys, i), w.reps[i], rule)))
  {
    RuleNode(EnvOf(sys, i), w.reps[i], rule);
    AdoptNode(sys, w, i, Fire(EnvOf(sys, i), w.reps[i], rule));
  }

  lemma EventGood(sys: Sys, w: World, i: nat, ev: Event)
    requires ValidSys(sys) && Good(sys, w) && i in w.reps && !w.reps[i].exec.panicked && EventOk(w.reps[i], ev)
    requires ev.Deliver? ==> Deliverable(sys, w, i, ev.msg)
    ensures Good(sys, Publish(w, i, Handle(EnvOf(sys, i), w.reps[i], ev)))
  {
    SafetySteps.EventStep(sys, w, i, ev);
    ProposalSteps.EventKeepsProposals(sys, w, i, ev);
    EventNodes(sys, w, i, ev);
  }

  lemma RuleGood(sys: Sys, w: World, i: nat, rule: Rule)
    requires ValidSys(sys) && Good(sys, w) && i in w.reps && RuleOk(EnvOf(sys, i), w.reps[i], rule)
    ensures Good(sys, Publish(w, i, Fire(EnvOf(sys, i), w.reps[i], rule)))
  {
    SafetySteps.RuleStep(sys, w, i, rule);
    ProposalSteps.RuleKeepsProposals(sys, w, i, rule);
    RuleNodes(sys, w, i, rule);
  }

  // ----- from rules to turns to runs -----

  lemma FireSigned(env: Env, r: Replica, rule: Rule)
    requires ValidEnv(env)
    ensures r.io.signed <= Fire(env, r, rule).io.signed
  {
  }

  lemma HandleSigned(env: Env, r: Replica, ev: Event)
    requires ValidEnv(env) && EventOk(r, ev)
    ensures r.io.signed == Handle(env, r, ev).io.signed
  {
  }

  lemma PublishTwice(w: World, i: nat, r1: Replica, r2: Replica)
    requires i in w.reps && w.reps[i].io.signed <= r1.io.signed <= r2.io.signed
    ensures Publish(Publish(w, i, r1), i, r2) == Publish(w, i, r2)
  {
    var s0, s1, s2 := w.reps[i].io.signed, r1.io.signed, r2.io.signed;
    assert s2[|s0|..] == s1[|s0|..] + s2[|s1|..];
    assert w.log + s1[|s0|..] + s2[|s1|..] == w.log + s2[|s0|..];
  }

  lemma {:induction false} RulesGood(sys: Sys, w: World, i: nat, r0: Replica, rules: seq<Rule>)
    requires ValidSys(sys) && i in w.reps && i < sys.cfg.n && w.reps[i].io.signed <= r0.io.signed
    requires Good(sys, Publish(w, i, r0)) && RulesOk(EnvOf(sys, i), r0, rules)
    ensures Good(sys, Publish(w, i, FireAll(EnvOf(sys, i), r0, rules)))
    ensures r0.io.signed <= FireAll(EnvOf(sys, i), r0, rules).io.signed
    decreases |rules|
  {
    if rules != [] {
      var env := EnvOf(sys, i);
      var front, rule := rules[..|rules| - 1], rules[|rules| - 1];
      RulesGood(sys, w, i, r0, front);
      var mid := FireAll(env, r0, front);
      FireSigned(env, mid, rule);
      RuleGood(sys, Publish(w, i, mid), i, rule);
      PublishTwice(w, i, mid, Fire(env, mid, rule));
    }
  }

  lemma TurnGood(sys: Sys, w: World, i: nat, ev: Event, rules: seq<Rule>, r': Replica)
    requires ValidSys(sys) && Good(sys, w) && i in w.reps
    requires ev.Deliver? ==> Deliverable(sys, w, i, ev.msg)
    requires Turn(EnvOf(sys, i), w.reps[i], ev, rules, r')
    ensures Good(sys, Publish(w, i, r')) && LogGrows(w.log, Publish(w, i, r').log)
  {
    EventGood(sys, w, i, ev);
    HandleSigned(EnvOf(sys, i), w.reps[i], ev);
    RulesGood(sys, w, i, Handle(EnvOf(sys, i), w.reps[i], ev), rules);
  }

  lemma StepGood(sys: Sys, w: World, w': World)
    requires ValidSys(sys) && Good(sys, w) && Step(sys, w, w')
    ensures Good(sys, w') && LogGrows(w.log, w'.log)
  {
    var i, ev: Event, rules: seq<Rule>, r': Replica :|
      && i in w.reps
      && (ev.Deliver? ==> Deliverable(sys, w, i, ev.msg))
      && Turn(EnvOf(sys, i), w.reps[i], ev, rules, r')
      && w' == Publish(w, i, r');
    TurnGood(sys, w, i, ev, rules, r');
  }

  // ----- the initial world -----

  lemma StartLocal(sys: Sys, i: nat)
    requires ValidSys(sys) && i < sys.cfg.n
    ensures Local(sys.cfg, [], i, StartProtocol(EnvOf(sys, i), NewReplica(EnvOf(sys, i))))
  {
    SafetySteps.EnterKeeps(sys.cfg, [], EnvOf(sys, i), i, NewReplica(EnvOf(sys, i)), Start);
  }

  lemma StartExec(env: Env)
    requires ValidEnv(env)
    ensures ExecOk(env, StartProtocol(env, NewReplica(env)))
  {
    NewExecCaches(env);
  }

  lemma StartDuties(env: Env)
    requires ValidEnv(env)
    ensures DutiesOk(env, StartProtocol(env, NewReplica(env)))
  {
    EnterDuties(env, NewReplica(env), Start);
  }

  lemma StartHalts(env: Env)
    requires ValidEnv(env)
    ensures var r := StartProtocol(env, NewReplica(env)); ReplicaHaltOk(env, r) && VotedKnown(env, r)
  {
    var r := StartProtocol(env, NewReplica(env));
    assert r.exec == NewExec(env) && r.io.signed == [] && r.core.tree == map[];
  }

  lemma StartNode(env: Env)
    requires ValidEnv(env) && env.base <= U64_MAX
    ensures NodeOk(env, StartProtocol(env, NewReplica(env)))
  {
    StartExec(env);
    StartHalts(env);
    StartPace(env);
    StartDuties(env);
  }

  /** A started replica has proposed nothing, has reported only an absent prepareQC, and has executed
      nothing: from genesis when it re-executes, without a state when it verifies. */
  lemma StartShape(env: Env)
    requires ValidEnv(env)
    ensures var r := StartProtocol(env, NewReplica(env));
            && r.core.view == 1
            && (forall v: nat :: At(r.core.viewData, v).proposal.None? && At(r.core.viewData, v).sent == {})
            && (forall v: nat, s | s in At(r.core.viewData, v).newViews :: v == 0 && s == env.me)
            && (forall e | e in r.io.outbox :: e.msg == NewViewMsg(0, None, env.me))
            && r.exec.last == -1 && r.exec.executed == [] && r.exec.requests == [] && r.exec.validation == map[]
            && (env.mode == Reexecute ==> r.exec.live == env.genesis)
            && (env.mode == Verify ==> r.exec.live.balances == map[])
  {
  }

  lemma StartProposals(sys: Sys, w: World, i: nat)
    requires ValidSys(sys) && Init(sys, w) && i in w.reps
    ensures ReplicaOk(sys, w, i, w.reps[i])
  {
    StartShape(EnvOf(sys, i));
  }

  lemma InitInv(sys: Sys, w: World)
    requires ValidSys(sys) && Init(sys, w)
    ensures Inv(sys, w)
  {
    forall i | i in w.reps ensures Local(sys.cfg, w.log, i, w.reps[i]) { StartLocal(sys, i); }
  }

  lemma InitProposals(sys: Sys, w: World)
    requires ValidSys(sys) && Init(sys, w)
    ensures ProposalInv(sys, w)
  {
    forall i | i in w.reps ensures ReplicaOk(sys, w, i, w.reps[i]) { StartProposals(sys, w, i); }
  }

  lemma InitNodes(sys: Sys, w: World)
    requires ValidSys(sys) && Init(sys, w)
    ensures NodesOk(sys, w)
  {
    forall i | i in w.reps ensures NodeOk(EnvOf(sys, i), w.reps[i]) { StartNode(EnvOf(sys, i)); }
  }

  lemma InitGood(sys: Sys, w: World)
    requires ValidSys(sys) && Init(sys, w)
    ensures Good(sys, w)
  {
    InitInv(sys, w);
    InitProposals(sys, w);
    InitNodes(sys, w);
  }

  /** Every world of every run is good. */
  lemma RunGood(sys: Sys, ws: seq<World>, k: nat)
    requires ValidSys(sys) && IsRun(sys, ws) && k < |ws|
    ensures Good(sys, ws[k])
  {
    InitGood(sys, ws[0]);
    for j := 0 to k
      invariant Good(sys, ws[j])
    {
      assert StepAt(sys, ws, j);
      StepGood(sys, ws[j], ws[j + 1]);
    }
  }

  lemma RunStep(sys: Sys, ws: seq<World>, k: nat)
    requires ValidSys(sys) && IsRun(sys, ws) && k + 1 < |ws|
    ensures LogGrows(ws[k].log, ws[k + 1].log)
  {
    RunGood(sys, ws, k);
    assert StepAt(sys, ws, k);
    StepGood(sys, ws[k], ws[k + 1]);
  }

  lemma RunLogGrows(sys: Sys, ws: seq<World>, k: nat, m: nat)
    requires ValidSys(sys) && IsRun(sys, ws) && k <= m < |ws|
    ensures LogGrows(ws[k].log, ws[m].log)
  {
    for j := k to m
      invariant LogGrows(ws[k].log, ws[j].log)
    {
      RunStep(sys, ws, j);
    }
  }
}
