/** One HotStuff replica as a value, and its rules and handlers as functions
    (node/consensus-node/src/state.rs, consensus/rules.rs, consensus/handlers.rs, consensus/mod.rs).

    The class in Node.dfy is the imperative replica, proved equal to these functions; System.dfy
    runs them together. What a hash map's iteration order decides is a parameter. */
module Replicas {
  import opened Messages
  import opened Quorums
  import opened Certificates
  import opened Ancestry
  import opened Execution

  /** Per-view bookkeeping. `voted`, `seen` and `sent` hold the message types whose fire-once
      flag is set: PREPARE/PRE-COMMIT/COMMIT votes, PRE-COMMIT/COMMIT/DECIDE receipts, and
      PREPARE/PRE-COMMIT/COMMIT/DECIDE broadcasts. */
  datatype ViewData = ViewData(
    proposal: Option<(Node, Option<QC>)>,
    voted: set<MsgType>,
    seen: set<MsgType>,
    sent: set<MsgType>,
    newViews: NewViews,
    votes: map<MsgType, Votes>)

  function FreshView(): ViewData {
    ViewData(None, {}, {}, {}, map[], map[])
  }

  function Bucket(votes: map<MsgType, Votes>, kind: MsgType): Votes {
    if kind in votes then votes[kind] else map[]
  }

  function AddVote(votes: map<MsgType, Votes>, kind: MsgType, voter: nat, vote: (Hash, Sig))
    : (votes': map<MsgType, Votes>)
    ensures forall k :: Bucket(votes', k) == if k == kind then Bucket(votes, kind)[voter := vote] else Bucket(votes, k)
  {
    votes[kind := Bucket(votes, kind)[voter := vote]]
  }

  /** Missing entries read as fresh. */
  type Views = map<nat, ViewData>

  /** The consensus part of the replica state. `staged[(k, v)]` is the certificate delivered by
      a PHASE message of type k in view v. */
  datatype Core = Core(
    view: nat,
    lockedQc: Option<QC>,
    prepareQc: Option<QC>,
    viewData: Views,
    tree: Tree,
    decided: set<Hash>,
    staged: map<(MsgType, nat), QC>,
    timeout: nat)

  /** Why a view was entered. */
  datatype Cause = Start | Timeout | Decision

  /** Effects on the outside: messages sent, ballots signed, unfired timers, views entered. */
  datatype Io = Io(outbox: set<Envelope>, signed: seq<Ballot>, timers: set<nat>, entered: seq<Cause>)

  datatype Replica = Replica(core: Core, exec: Exec, io: Io)

  function At(m: Views, v: nat): ViewData {
    if v in m then m[v] else FreshView()
  }

  function Put(m: Views, v: nat, d: ViewData): (m': Views)
    ensures forall u: nat :: At(m', u) == if u == v then d else At(m, u)
  {
    m[v := d]
  }

  function Vd(c: Core, v: nat): ViewData {
    At(c.viewData, v)
  }

  function PutVd(c: Core, v: nat, d: ViewData): Core {
    c.(viewData := Put(c.viewData, v, d))
  }

  function Leader(n: nat, view: nat): (l: nat)
    requires n >= 1
    ensures l < n
  {
    if view == 0 then 0 else (view - 1) % n
  }

  function ToPeers(env: Env, msg: Wire): (r: set<Envelope>)
    ensures forall e :: e in r <==> e.msg == msg && e.to < env.n && e.to != env.me
  {
    set i | i in Ids(env.n) && i != env.me :: Envelope(i, msg)
  }

  predicate ValidEnv(env: Env) {
    env.n >= 1 && env.me < env.n
  }

  predicate Accepts(env: Env, qc: QC)
    requires ValidEnv(env)
  {
    QcVerifies(qc, Quorum(env.n), KeyMap(env.n))
  }

  predicate AcceptsJustify(env: Env, justify: Option<QC>)
    requires ValidEnv(env)
  {
    justify.Some? ==> Accepts(env, justify.value)
  }

  function JustifiedNode(justify: Option<QC>): Hash {
    if justify.Some? then justify.value.node else Genesis
  }

  // ----- views and timers -----

  function NewReplica(env: Env): Replica {
    Replica(Core(0, None, None, map[], map[], {}, map[], env.base), NewExec(env), Io({}, [], {}, []))
  }

  function EnterNewView(env: Env, r: Replica, cause: Cause): Replica
    requires ValidEnv(env)
  {
    var c := r.core;
    var prev, next := c.view, c.view + 1;
    var leader := Leader(env.n, next);
    var d := Vd(c, prev);
    var c1 := c.(view := next);
    var c2 := if leader == env.me
              then PutVd(c1, prev, d.(newViews := d.newViews[env.me := c.prepareQc])) else c1;
    var out := if leader == env.me then r.io.outbox
               else r.io.outbox + {Envelope(leader, NewViewMsg(prev, c.prepareQc, env.me))};
    r.(core := c2,
       io := r.io.(outbox := out, timers := r.io.timers + {next}, entered := r.io.entered + [cause]))
  }

  function StartProtocol(env: Env, r: Replica): Replica
    requires ValidEnv(env)
  {
    EnterNewView(env, r.(core := r.core.(view := 0)), Start)
  }

  const U64_MAX: nat := 0xFFFF_FFFF_FFFF_FFFF

  function SaturatingDouble(ms: nat): nat {
    if 2 * ms > U64_MAX then U64_MAX else 2 * ms
  }

  /** The timer of `view` fires. */
  function HandleTimer(env: Env, r: Replica, view: nat): Replica
    requires ValidEnv(env)
  {
    var r1 := r.(io := r.io.(timers := r.io.timers - {view}));
    if view != r.core.view || Decide in Vd(r.core, view).seen then r1
    else EnterNewView(env, r1.(core := r.core.(timeout := SaturatingDouble(r.core.timeout))), Timeout)
  }

  // ----- incoming messages -----

  function HandleProposal(env: Env, r: Replica, view: nat, node: Node, justify: Option<QC>, sender: nat): Replica
    requires ValidEnv(env)
  {
    if sender != Leader(env.n, view) || !AcceptsJustify(env, justify) || node.parent != JustifiedNode(justify) then r
    else
      var c := r.core.(tree := r.core.tree[NodeHash(node) := node]);
      var d := Vd(c, view);
      var c1 := if d.proposal.None? then PutVd(c, view, d.(proposal := Some((node, justify)))) else c;
      r.(core := c1, exec := MaybeKick(env, c1.tree, r.exec, NodeHash(node)))
  }

  /** The vote type certified by the certificate of a PHASE message. */
  function CertKind(kind: MsgType): Option<MsgType> {
    match kind
    case PreCommit => Some(Prepare)
    case Commit => Some(PreCommit)
    case Decide => Some(Commit)
    case _ => None
  }

  function Stage(c: Core, kind: MsgType, view: nat, cert: QC): Core {
    var d := Vd(c, view);
    if kind in d.seen then c
    else PutVd(c, view, d.(seen := d.seen + {kind})).(staged := c.staged[(kind, view) := cert])
  }

  function HandlePhaseQc(env: Env, r: Replica, kind: MsgType, view: nat, cert: QC, sender: nat): Replica
    requires ValidEnv(env)
  {
    if sender != Leader(env.n, view) || CertKind(kind) != Some(cert.kind) || cert.view != view || !Accepts(env, cert)
    then r
    else
      var c := if kind == Decide && Decide !in Vd(r.core, view).seen
               then r.core.(decided := r.core.decided + {cert.node}) else r.core;
      r.(core := Stage(c, kind, view, cert))
  }

  predicate VoteKind(kind: MsgType) {
    kind in {Prepare, PreCommit, Commit}
  }

  function HandleVote(env: Env, r: Replica, kind: MsgType, view: nat, hash: Hash, voter: nat, sig: Sig): Replica
    requires ValidEnv(env)
  {
    if Leader(env.n, view) != env.me
       || (voter != env.me && (voter !in KeyMap(env.n) || !VerifyVoteSig(KeyMap(env.n)[voter], kind, view, hash, sig)))
       || !VoteKind(kind)
       || voter in Bucket(Vd(r.core, view).votes, kind) then r
    else
      var d := Vd(r.core, view);
      r.(core := PutVd(r.core, view, d.(votes := AddVote(d.votes, kind, voter, (hash, sig)))))
  }

  function HandleNewView(env: Env, r: Replica, view: nat, justify: Option<QC>, sender: nat): Replica
    requires ValidEnv(env)
  {
    var d := Vd(r.core, view);
    if Leader(env.n, view + 1) != env.me || !AcceptsJustify(env, justify) || sender in d.newViews then r
    else r.(core := PutVd(r.core, view, d.(newViews := d.newViews[sender := justify])))
  }

  function HandleMsg(env: Env, r: Replica, msg: Wire): Replica
    requires ValidEnv(env)
  {
    match msg
    case Hello(_) => r
    case Proposal(view, node, justify, sender) => HandleProposal(env, r, view, node, justify, sender)
    case PhaseQc(kind, view, cert, sender) => HandlePhaseQc(env, r, kind, view, cert, sender)
    case Vote(kind, view, hash, voter, sig) => HandleVote(env, r, kind, view, hash, voter, sig)
    case NewViewMsg(view, justify, sender) => HandleNewView(env, r, view, justify, sender)
  }

  datatype Event = Startup | Deliver(msg: Wire) | Timer(view: nat) | ValidationDone(readable: bool)

  /** The event can reach the replica's loop. */
  predicate EventOk(r: Replica, ev: Event) {
    && (ev.Timer? ==> ev.view in r.io.timers)
    && (ev.ValidationDone? ==> r.exec.requests != [])
  }

  function Handle(env: Env, r: Replica, ev: Event): Replica
    requires ValidEnv(env) && EventOk(r, ev)
  {
    match ev
    case Startup => r
    case Deliver(msg) => HandleMsg(env, r, msg)
    case Timer(view) => HandleTimer(env, r, view)
    case ValidationDone(readable) => r.(exec := Validated(env, r.exec, readable))
  }

  // ----- rules -----

  /** View whose NEW-VIEW messages the leader of the current view collects. */
  function PrevView(c: Core): nat {
    if c.view == 0 then 0 else c.view - 1
  }

  predicate CanPropose(env: Env, r: Replica)
    requires ValidEnv(env)
  {
    && Leader(env.n, r.core.view) == env.me
    && Prepare !in Vd(r.core, r.core.view).sent
    && |Vd(r.core, PrevView(r.core)).newViews| >= Quorum(env.n)
  }

  function NextHeight(tree: Tree, high: Option<QC>): Option<nat> {
    match high
    case None => Some(0)
    case Some(q) => if q.node in tree then Some(tree[q.node].height + 1) else None
  }

  /** Leader: propose on top of the highest justify of n-f NEW-VIEW messages. */
  function LeaderPrepare(env: Env, r: Replica, high: Option<QC>): Replica
    requires ValidEnv(env)
  {
    var height := NextHeight(r.core.tree, high);
    if !CanPropose(env, r) || height.None? || height.value >= env.numBlocks then r
    else
      var v := r.core.view;
      var leaf := Node(JustifiedNode(high), env.blocks(height.value).cmd, height.value);
      var c := r.core.(tree := r.core.tree[NodeHash(leaf) := leaf]);
      var d := Vd(c, v);
      var d1 := if d.proposal.None? then d.(proposal := Some((leaf, high))) else d;
      var c1 := PutVd(c, v, d1.(sent := d1.sent + {Prepare}));
      Replica(c1, MaybeKick(env, c1.tree, r.exec, NodeHash(leaf)),
              r.io.(outbox := r.io.outbox + ToPeers(env, Proposal(v, leaf, high, env.me))))
  }

  /** Sign a vote of the current view and hand it to the view's leader. */
  function CastVote(env: Env, r: Replica, kind: MsgType, h: Hash): Replica
    requires ValidEnv(env)
  {
    var v := r.core.view;
    var sig := Sig(env.me, kind, v, h);
    var d := Vd(r.core, v);
    var d1 := d.(voted := d.voted + {kind});
    var io := r.io.(signed := r.io.signed + [Ballot(env.me, kind, v, h)]);
    if Leader(env.n, v) == env.me then
      r.(core := PutVd(r.core, v, d1.(votes := AddVote(d.votes, kind, env.me, (h, sig)))), io := io)
    else
      r.(core := PutVd(r.core, v, d1),
         io := io.(outbox := io.outbox + {Envelope(Leader(env.n, v), Vote(kind, v, h, env.me, sig))}))
  }

  /** Replica: vote PREPARE once validated and safe, or give up the vote. */
  function ReplicaPrepare(env: Env, r: Replica): Replica
    requires ValidEnv(env)
  {
    var v := r.core.view;
    var d := Vd(r.core, v);
    if d.proposal.None? || Prepare in d.voted then r
    else
      var (leaf, high) := d.proposal.value;
      if NodeHash(leaf) !in r.exec.validation then r
      else if !r.exec.validation[NodeHash(leaf)] || !SafeNode(leaf, high, r.core.lockedQc, r.core.tree) then
        r.(core := PutVd(r.core, v, d.(voted := d.voted + {Prepare})))
      else CastVote(env, r, Prepare, NodeHash(leaf))
  }

  /** The PHASE message a leader broadcasts once it has a certificate of `kind` votes. */
  function PhaseAfter(kind: MsgType): MsgType {
    match kind
    case Prepare => PreCommit
    case PreCommit => Commit
    case _ => Decide
  }

  predicate CanForm(env: Env, r: Replica, kind: MsgType)
    requires ValidEnv(env)
  {
    Leader(env.n, r.core.view) == env.me && PhaseAfter(kind) !in Vd(r.core, r.core.view).sent
  }

  /** Leader: broadcast the certificate of this phase's votes and stage it locally. */
  function LeaderPhase(env: Env, r: Replica, kind: MsgType, formed: Option<QC>): Replica
    requires ValidEnv(env)
  {
    if !CanForm(env, r, kind) || formed.None? then r
    else
      var v, next := r.core.view, PhaseAfter(kind);
      var d := Vd(r.core, v);
      var c := PutVd(r.core, v, d.(sent := d.sent + {next}));
      r.(core := Stage(c, next, v, formed.value),
         io := r.io.(outbox := r.io.outbox + ToPeers(env, PhaseQc(next, v, formed.value, env.me))))
  }

  /** Replica: on PRE-COMMIT store the prepareQC and vote; on COMMIT lock and vote. */
  function ReplicaPhase(env: Env, r: Replica, kind: MsgType): Replica
    requires ValidEnv(env)
  {
    var v := r.core.view;
    var d := Vd(r.core, v);
    if kind !in d.seen || kind in d.voted || (kind, v) !in r.core.staged then r
    else
      var qc := r.core.staged[(kind, v)];
      var c := if kind == PreCommit then r.core.(prepareQc := Some(qc)) else r.core.(lockedQc := Some(qc));
      CastVote(env, r.(core := c), kind, qc.node)
  }

  /** Replica: execute through the decided node and move to the next view. */
  function ReplicaDecide(env: Env, r: Replica): Replica
    requires ValidEnv(env)
  {
    var v := r.core.view;
    if Decide !in Vd(r.core, v).seen || (Decide, v) !in r.core.staged then r
    else
      var h := r.core.staged[(Decide, v)].node;
      var c := r.core.(decided := r.core.decided + {h});
      var ex := TryExecute(env, c.tree, r.exec, h);
      if ex.panicked then r.(core := c, exec := ex)
      else EnterNewView(env, r.(core := c.(timeout := env.base), exec := ex), Decision)
  }

  /** One entry of a `try_advance` pass, with what map iteration order decided. */
  datatype Rule =
    | ProposeRule(high: Option<QC>)
    | PrepareRule
    | FormRule(kind: MsgType, formed: Option<QC>)
    | PhaseRule(kind: MsgType)
    | DecideRule
    | RetryRule(order: seq<Hash>)
    | KickRule(order: seq<Hash>)

  ghost predicate Enumerates<T(!new)>(order: seq<T>, s: set<T>) {
    |order| == |s| && forall x :: x in order <==> x in s
  }

  /** The parameter is one the source could have computed in this state. */
  ghost predicate RuleOk(env: Env, r: Replica, rule: Rule)
    requires ValidEnv(env)
  {
    match rule
    case ProposeRule(high) => CanPropose(env, r) ==> Highest(Vd(r.core, PrevView(r.core)).newViews, high)
    case FormRule(kind, formed) =>
      VoteKind(kind)
      && (CanForm(env, r, kind)
          ==> Formed(Bucket(Vd(r.core, r.core.view).votes, kind), kind, r.core.view, Quorum(env.n), formed))
    case PhaseRule(kind) => kind in {PreCommit, Commit}
    case RetryRule(order) => Enumerates(order, r.core.decided)
    case KickRule(order) => Enumerates(order, r.core.tree.Keys)
    case _ => true
  }

  function Fire(env: Env, r: Replica, rule: Rule): Replica
    requires ValidEnv(env)
  {
    if r.exec.panicked then r
    else match rule
         case ProposeRule(high) => LeaderPrepare(env, r, high)
         case PrepareRule => ReplicaPrepare(env, r)
         case FormRule(kind, formed) => LeaderPhase(env, r, kind, formed)
         case PhaseRule(kind) => ReplicaPhase(env, r, kind)
         case DecideRule => ReplicaDecide(env, r)
         case RetryRule(order) => r.(exec := RetryPending(env, r.core.tree, r.exec, order))
         case KickRule(order) => r.(exec := KickPending(env, r.core.tree, r.exec, order))
  }

  function FireAll(env: Env, r: Replica, rules: seq<Rule>): Replica
    requires ValidEnv(env)
  {
    if rules == [] then r else Fire(env, FireAll(env, r, rules[..|rules| - 1]), rules[|rules| - 1])
  }

  ghost predicate RulesOk(env: Env, r: Replica, rules: seq<Rule>)
    requires ValidEnv(env)
  {
    rules == [] || (RulesOk(env, r, rules[..|rules| - 1])
                    && RuleOk(env, FireAll(env, r, rules[..|rules| - 1]), rules[|rules| - 1]))
  }

  /** The fixed order of `try_advance`. */
  predicate IsPass(rules: seq<Rule>) {
    && |rules| == 10
    && rules[0].ProposeRule?
    && rules[1] == PrepareRule
    && rules[2].FormRule? && rules[2].kind == Prepare
    && rules[3] == PhaseRule(PreCommit)
    && rules[4].FormRule? && rules[4].kind == PreCommit
    && rules[5] == PhaseRule(Commit)
    && rules[6].FormRule? && rules[6].kind == Commit
    && rules[7] == DecideRule
    && rules[8].RetryRule?
    && rules[9].KickRule?
  }

  /** The main loop still runs. */
  predicate Running(env: Env, r: Replica) {
    !r.exec.panicked && r.exec.last + 1 < env.numBlocks
  }

  /** One turn of the main loop: an event, then one pass over the rules unless the event aborted. */
  ghost predicate Turn(env: Env, r: Replica, ev: Event, rules: seq<Rule>, r': Replica)
    requires ValidEnv(env)
  {
    && Running(env, r) && EventOk(r, ev)
    && (if Handle(env, r, ev).exec.panicked then rules == [] else IsPass(rules))
    && RulesOk(env, Handle(env, r, ev), rules)
    && r' == FireAll(env, Handle(env, r, ev), rules)
  }
}
