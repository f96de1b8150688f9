/** View changes, timers and timeout backoff (handlers.rs, enter_new_view and handle_timer). */
module Pacemaker {
  import opened Messages
  import opened Execution
  import opened Generator
  import opened Replicas

  // ----- leaders -----

  /** Numbers less than n apart with one remainder are equal. */
  lemma SameRemainder(n: nat, x: nat, y: nat)
    requires n >= 1 && x % n == y % n && x <= y < x + n
    ensures x == y
  {
    if x / n < y / n { Apart(y / n, x / n, n); } else if y / n < x / n { Apart(x / n, y / n, n); }
  }

  lemma ShiftRemainder(n: nat, x: nat, d: nat)
    requires n >= 1 && x % n + d < n
    ensures (x + d) % n == x % n + d
  {
    DivUnique(x + d, n, x / n, x % n + d);
  }

  lemma WrapRemainder(n: nat, x: nat, d: nat)
    requires n >= 1 && n <= x % n + d < 2 * n
    ensures (x + d) % n == x % n + d - n
  {
    DivUnique(x + d, n, x / n + 1, x % n + d - n);
  }

  /** Rotation: any n consecutive views from 1 on are led by every replica exactly once. */
  lemma LeadsOnce(n: nat, v: nat, l: nat) returns (u: nat)
    requires 1 <= n && 1 <= v && l < n
    ensures v <= u < v + n && Leader(n, u) == l
    ensures forall w | v <= w < v + n && Leader(n, w) == l :: w == u
  {
    var r := (v - 1) % n;
    if r <= l {
      u := v + (l - r);
      ShiftRemainder(n, v - 1, l - r);
    } else {
      u := v + (n + l - r);
      WrapRemainder(n, v - 1, n + l - r);
    }
    forall w | v <= w < v + n && Leader(n, w) == l ensures w == u {
      if w <= u { SameRemainder(n, w - 1, u - 1); } else { SameRemainder(n, u - 1, w - 1); }
    }
  }

  /** Leaders follow one another around the ring, starting with replica 0 in view 1. */
  lemma NextLeader(n: nat, v: nat)
    requires 1 <= n && 1 <= v
    ensures Leader(n, 1) == 0
    ensures Leader(n, v + 1) == if Leader(n, v) + 1 < n then Leader(n, v) + 1 else 0
  {
    if Leader(n, v) + 1 < n { ShiftRemainder(n, v - 1, 1); } else { WrapRemainder(n, v - 1, 1); }
  }

  // ----- timers and backoff -----

  function Pow2(k: nat): nat {
    if k == 0 then 1 else 2 * Pow2(k - 1)
  }

  /** NEXTVIEW transitions since the last view left through DECIDE. */
  function TimeoutRun(entered: seq<Cause>): nat {
    if entered == [] || entered[|entered| - 1] != Timeout then 0 else 1 + TimeoutRun(entered[..|entered| - 1])
  }

  function Saturate(x: nat): nat {
    if x > U64_MAX then U64_MAX else x
  }

  /** The pacemaker's timeout: base times 2^k, saturated. */
  function Backoff(base: nat, entered: seq<Cause>): nat {
    Saturate(base * Pow2(TimeoutRun(entered)))
  }

  lemma BackoffStep(base: nat, entered: seq<Cause>)
    ensures Backoff(base, entered + [Timeout]) == SaturatingDouble(Backoff(base, entered))
    ensures base <= U64_MAX ==> Backoff(base, entered + [Decision]) == base
  {
    assert (entered + [Timeout])[..|entered|] == entered;
    assert TimeoutRun(entered + [Timeout]) == 1 + TimeoutRun(entered);
    assert base * (2 * Pow2(TimeoutRun(entered))) == 2 * (base * Pow2(TimeoutRun(entered)));
    assert TimeoutRun(entered + [Decision]) == 0;
  }

  /** Staged certificates exist for every receipt flag. */
  ghost predicate ReceiptsOk(c: Core) {
    forall v: nat, k | k in At(c.viewData, v).seen :: (k, v) in c.staged
  }

  /** Views were entered one by one from 1, and the timeout is the backoff of how they were left. */
  ghost predicate PaceOk(env: Env, r: Replica) {
    && r.core.view >= 1 && |r.io.entered| == r.core.view && r.io.entered[0] == Start
    && (forall k | 0 < k < |r.io.entered| :: r.io.entered[k] != Start)
    && r.core.timeout == Backoff(env.base, r.io.entered)
    && ReceiptsOk(r.core)
    && (forall t | t in r.io.timers :: 1 <= t <= r.core.view)
  }

  /** The current view still has its timer, or a DECIDE that will end it in this pass. */
  ghost predicate Awake(r: Replica) {
    r.core.view in r.io.timers || Decide in At(r.core.viewData, r.core.view).seen
  }

  lemma EnterPace(env: Env, r: Replica, cause: Cause)
    requires ValidEnv(env) && cause != Start
    requires PaceOk(env, r.(core := r.core.(timeout := Backoff(env.base, r.io.entered))))
    requires r.core.timeout == Backoff(env.base, r.io.entered + [cause])
    ensures PaceOk(env, EnterNewView(env, r, cause)) && Awake(EnterNewView(env, r, cause))
  {
    var r' := EnterNewView(env, r, cause);
    forall v: nat, k | k in At(r'.core.viewData, v).seen ensures (k, v) in r'.core.staged {
      assert k in At(r.core.viewData, v).seen;
    }
  }

  lemma StartPace(env: Env)
    requires ValidEnv(env) && env.base <= U64_MAX
    ensures var r := StartProtocol(env, NewReplica(env)); PaceOk(env, r) && r.core.view in r.io.timers
  {
  }

  lemma TimerPace(env: Env, r: Replica, view: nat)
    requires ValidEnv(env) && PaceOk(env, r) && Awake(r)
    ensures PaceOk(env, HandleTimer(env, r, view)) && Awake(HandleTimer(env, r, view))
  {
    BackoffStep(env.base, r.io.entered);
    var r1 := r.(io := r.io.(timers := r.io.timers - {view}));
    if view == r.core.view && Decide !in Vd(r.core, view).seen {
      EnterPace(env, r1.(core := r.core.(timeout := SaturatingDouble(r.core.timeout))), Timeout);
    }
  }

  lemma StagePace(env: Env, r: Replica, kind: MsgType, view: nat, cert: QC)
    requires PaceOk(env, r) && Awake(r)
    ensures var r' := r.(core := Stage(r.core, kind, view, cert)); PaceOk(env, r') && Awake(r')
  {
    var c' := Stage(r.core, kind, view, cert);
    forall v: nat, k | k in At(c'.viewData, v).seen ensures (k, v) in c'.staged {
      assert k in At(r.core.viewData, v).seen || (k == kind && v == view);
    }
  }

  /** Nothing the pacemaker looks at changed. */
  ghost predicate SamePace(r: Replica, r': Replica) {
    && r'.core.view == r.core.view && r'.core.timeout == r.core.timeout && r'.core.staged == r.core.staged
    && r'.io.timers == r.io.timers && r'.io.entered == r.io.entered
    && forall v: nat :: At(r'.core.viewData, v).seen == At(r.core.viewData, v).seen
  }

  lemma SamePaceKeeps(env: Env, r: Replica, r': Replica)
    requires SamePace(r, r') && PaceOk(env, r) && Awake(r)
    ensures PaceOk(env, r') && Awake(r')
  {
    forall v: nat, k | k in At(r'.core.viewData, v).seen ensures (k, v) in r'.core.staged {
      assert k in At(r.core.viewData, v).seen;
    }
  }

  lemma MessageSamePace(env: Env, r: Replica, msg: Wire)
    requires ValidEnv(env) && !msg.PhaseQc?
    ensures SamePace(r, HandleMsg(env, r, msg))
  {
  }

  lemma PhaseQcPace(env: Env, r: Replica, kind: MsgType, view: nat, cert: QC, sender: nat)
    requires ValidEnv(env) && PaceOk(env, r) && Awake(r)
    ensures var r' := HandlePhaseQc(env, r, kind, view, cert, sender); PaceOk(env, r') && Awake(r')
  {
    var r1 := r.(core := r.core.(decided := r.core.decided + {cert.node}));
    SamePaceKeeps(env, r, r1);
    StagePace(env, r1, kind, view, cert);
    StagePace(env, r, kind, view, cert);
  }

  lemma EventPace(env: Env, r: Replica, ev: Event)
    requires ValidEnv(env) && PaceOk(env, r) && Awake(r) && EventOk(r, ev)
    ensures PaceOk(env, Handle(env, r, ev)) && Awake(Handle(env, r, ev))
  {
    match ev
    case Timer(view) => TimerPace(env, r, view);
    case Deliver(msg) =>
      if msg.PhaseQc? {
        PhaseQcPace(env, r, msg.kind, msg.view, msg.cert, msg.sender);
      } else {
        MessageSamePace(env, r, msg);
        SamePaceKeeps(env, r, HandleMsg(env, r, msg));
      }
    case _ => SamePaceKeeps(env, r, Handle(env, r, ev));
  }

  lemma DecidePace(env: Env, r: Replica)
    requires ValidEnv(env) && env.base <= U64_MAX && PaceOk(env, r) && Awake(r) && !r.exec.panicked
    ensures PaceOk(env, ReplicaDecide(env, r)) && Awake(ReplicaDecide(env, r))
    ensures var r' := ReplicaDecide(env, r); r'.exec.panicked || r'.core.view in r'.io.timers
  {
    var v := r.core.view;
    if Decide in At(r.core.viewData, v).seen {
      assert (Decide, v) in r.core.staged;
      BackoffStep(env.base, r.io.entered);
      var h := r.core.staged[(Decide, v)].node;
      var c := r.core.(decided := r.core.decided + {h});
      var ex := TryExecute(env, c.tree, r.exec, h);
      EnterPace(env, r.(core := c.(timeout := env.base), exec := ex), Decision);
    }
  }

  lemma FormPace(env: Env, r: Replica, kind: MsgType, formed: Option<QC>)
    requires ValidEnv(env) && PaceOk(env, r) && Awake(r)
    ensures var r' := LeaderPhase(env, r, kind, formed); PaceOk(env, r') && Awake(r')
  {
    if CanForm(env, r, kind) && formed.Some? {
      var v, d := r.core.view, Vd(r.core, r.core.view);
      var r1 := r.(core := PutVd(r.core, v, d.(sent := d.sent + {PhaseAfter(kind)})),
                   io := LeaderPhase(env, r, kind, formed).io);
      SamePaceKeeps(env, r, r1);
      StagePace(env, r1, PhaseAfter(kind), v, formed.value);
    }
  }

  lemma ProposeSamePace(env: Env, r: Replica, high: Option<QC>)
    requires ValidEnv(env)
    ensures SamePace(r, LeaderPrepare(env, r, high))
  {
  }

  lemma CastSamePace(env: Env, r: Replica, kind: MsgType, h: Hash)
    requires ValidEnv(env)
    ensures SamePace(r, CastVote(env, r, kind, h))
  {
  }

  lemma PrepareSamePace(env: Env, r: Replica)
    requires ValidEnv(env)
    ensures SamePace(r, ReplicaPrepare(env, r))
  {
    var d := Vd(r.core, r.core.view);
    if d.proposal.Some? { CastSamePace(env, r, Prepare, NodeHash(d.proposal.value.0)); }
  }

  lemma PhaseSamePace(env: Env, r: Replica, kind: MsgType)
    requires ValidEnv(env)
    ensures SamePace(r, ReplicaPhase(env, r, kind))
  {
    if ReplicaPhase(env, r, kind) != r {
      var qc := r.core.staged[(kind, r.core.view)];
      var c := if kind == PreCommit then r.core.(prepareQc := Some(qc)) else r.core.(lockedQc := Some(qc));
      CastSamePace(env, r.(core := c), kind, qc.node);
    }
  }

  lemma RuleSamePace(env: Env, r: Replica, rule: Rule)
    requires ValidEnv(env) && !rule.FormRule? && rule != DecideRule
    ensures SamePace(r, Fire(env, r, rule))
  {
    match rule
    case ProposeRule(high) => ProposeSamePace(env, r, high);
    case PrepareRule => PrepareSamePace(env, r);
    case PhaseRule(kind) => PhaseSamePace(env, r, kind);
    case _ =>
  }

  lemma RulePace(env: Env, r: Replica, rule: Rule)
    requires ValidEnv(env) && env.base <= U64_MAX && PaceOk(env, r) && Awake(r)
    ensures PaceOk(env, Fire(env, r, rule)) && Awake(Fire(env, r, rule))
  {
    if !r.exec.panicked {
      match rule
      case DecideRule => DecidePace(env, r);
      case FormRule(kind, formed) => FormPace(env, r, kind, formed);
      case _ =>
        RuleSamePace(env, r, rule);
        SamePaceKeeps(env, r, Fire(env, r, rule));
    }
  }

  // ----- a whole turn -----

  lemma {:induction false} RulesPace(env: Env, r: Replica, rules: seq<Rule>)
    requires ValidEnv(env) && env.base <= U64_MAX && PaceOk(env, r) && Awake(r)
    ensures PaceOk(env, FireAll(env, r, rules)) && Awake(FireAll(env, r, rules))
    ensures r.core.view <= FireAll(env, r, rules).core.view
    decreases |rules|
  {
    if rules != [] {
      var front := rules[..|rules| - 1];
      RulesPace(env, r, front);
      RulePace(env, FireAll(env, r, front), rules[|rules| - 1]);
      ViewUp(env, FireAll(env, r, front), rules[|rules| - 1]);
    }
  }

  /** A rule moves the view by at most one, and only DECIDE does. */
  lemma ViewUp(env: Env, r: Replica, rule: Rule)
    requires ValidEnv(env)
    ensures var r' := Fire(env, r, rule);
            r'.core.view == r.core.view || (rule == DecideRule && r'.core.view == r.core.view + 1)
  {
    if rule.FormRule? || rule == DecideRule {
    } else {
      RuleSamePace(env, r, rule);
    }
  }

  lemma QuietRule(env: Env, r: Replica, rule: Rule)
    requires ValidEnv(env) && (rule.RetryRule? || rule.KickRule?)
    ensures Fire(env, r, rule).core == r.core && Fire(env, r, rule).io == r.io
    ensures r.exec.panicked ==> Fire(env, r, rule) == r
  {
  }

  lemma FireNext(env: Env, r: Replica, rules: seq<Rule>, k: nat)
    requires ValidEnv(env) && k < |rules|
    ensures FireAll(env, r, rules[..k + 1]) == Fire(env, FireAll(env, r, rules[..k]), rules[k])
  {
    assert rules[..k + 1][..k] == rules[..k];
  }

  /** The last three rules of a pass: decide, backfill, kick. */
  lemma PassEnd(env: Env, r: Replica, rules: seq<Rule>)
    requires ValidEnv(env) && IsPass(rules)
    ensures var r7 := FireAll(env, r, rules[..7]);
            FireAll(env, r, rules) == Fire(env, Fire(env, Fire(env, r7, DecideRule), rules[8]), rules[9])
  {
    FireNext(env, r, rules, 7);
    FireNext(env, r, rules, 8);
    FireNext(env, r, rules, 9);
    assert rules[..10] == rules;
  }

  /** No replica is stranded: after every turn the current view's timer is still to fire, unless
      the process aborted. */
  lemma TurnKeepsTimer(env: Env, r: Replica, ev: Event, rules: seq<Rule>, r': Replica)
    requires ValidEnv(env) && env.base <= U64_MAX && PaceOk(env, r) && Awake(r) && Turn(env, r, ev, rules, r')
    ensures PaceOk(env, r') && Awake(r')
    ensures r'.exec.panicked || r'.core.view in r'.io.timers
  {
    EventPace(env, r, ev);
    RulesPace(env, Handle(env, r, ev), rules);
    if !Handle(env, r, ev).exec.panicked { PassKeepsTimer(env, Handle(env, r, ev), rules); }
  }

  lemma PassKeepsTimer(env: Env, r: Replica, rules: seq<Rule>)
    requires ValidEnv(env) && env.base <= U64_MAX && PaceOk(env, r) && Awake(r) && IsPass(rules)
    ensures var r' := FireAll(env, r, rules); r'.exec.panicked || r'.core.view in r'.io.timers
  {
    RulesPace(env, r, rules[..7]);
    PassEnd(env, r, rules);
    EndKeepsTimer(env, FireAll(env, r, rules[..7]), rules[8], rules[9]);
  }

  lemma EndKeepsTimer(env: Env, r: Replica, retry: Rule, kick: Rule)
    requires ValidEnv(env) && env.base <= U64_MAX && PaceOk(env, r) && Awake(r) && retry.RetryRule? && kick.KickRule?
    ensures var r' := Fire(env, Fire(env, Fire(env, r, DecideRule), retry), kick);
            r'.exec.panicked || r'.core.view in r'.io.timers
  {
    var r8 := Fire(env, r, DecideRule);
    if !r.exec.panicked { DecidePace(env, r); }
    QuietRule(env, r8, retry);
    QuietRule(env, Fire(env, r8, retry), kick);
  }

  /** A timer of the current view always ends the view, also when a DECIDE makes the handler ignore it. */
  lemma TimerEndsView(env: Env, r: Replica, rules: seq<Rule>, r': Replica)
    requires ValidEnv(env) && env.base <= U64_MAX && PaceOk(env, r) && Awake(r)
    requires Turn(env, r, Timer(r.core.view), rules, r')
    ensures r'.exec.panicked || r'.core.view > r.core.view
  {
    TurnKeepsTimer(env, r, Timer(r.core.view), rules, r');
    var r0 := Handle(env, r, Timer(r.core.view));
    EventPace(env, r, Timer(r.core.view));
    RulesPace(env, r0, rules);
    if r'.core.view == r.core.view {
      TimersKept(env, r0, rules);
    }
  }

  /** Within one view the rules arm no timer. */
  lemma {:induction false} TimersKept(env: Env, r: Replica, rules: seq<Rule>)
    requires ValidEnv(env) && env.base <= U64_MAX && PaceOk(env, r) && Awake(r)
    requires FireAll(env, r, rules).core.view == r.core.view
    ensures FireAll(env, r, rules).io.timers == r.io.timers
    decreases |rules|
  {
    if rules != [] {
      var front, rule := rules[..|rules| - 1], rules[|rules| - 1];
      var mid := FireAll(env, r, front);
      RulesPace(env, r, front);
      ViewUp(env, mid, rule);
      TimersKept(env, r, front);
      TimersOfRule(env, mid, rule);
    }
  }

  lemma TimersOfRule(env: Env, r: Replica, rule: Rule)
    requires ValidEnv(env) && Fire(env, r, rule).core.view == r.core.view
    ensures Fire(env, r, rule).io.timers == r.io.timers
  {
    if !rule.FormRule? && rule != DecideRule {
      RuleSamePace(env, r, rule);
    }
  }
}
