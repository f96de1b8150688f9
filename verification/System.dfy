/** All replicas together: worlds, steps and runs, with the hypotheses on the network.

    Channels are authenticated, signatures cannot be forged, and at most f = (n-1)/3 replicas
    are faulty. Messages may be lost, repeated, reordered and delayed without bound. */
module Systems {
  import opened Messages
  import opened Quorums
  import opened Execution
  import opened Replicas
  import opened VoteLog
  import opened Ledger

  /** Fixed parameters: the replicas and the workload directory every node holds. */
  datatype Sys = Sys(cfg: Config, base: nat, numBlocks: nat, blocks: nat -> Block, modes: nat -> Mode, genesis: State)

  ghost predicate ValidSys(sys: Sys) {
    ValidConfig(sys.cfg) && sys.base <= U64_MAX
  }

  ghost function EnvOf(sys: Sys, i: nat): (env: Env)
    requires ValidSys(sys) && i < sys.cfg.n
    ensures ValidEnv(env)
  {
    Env(sys.cfg.n, i, sys.base, sys.numBlocks, sys.blocks, sys.modes(i), sys.genesis)
  }

  /** The correct replicas, and every ballot they signed in signing order. */
  datatype World = World(reps: map<nat, Replica>, log: Log)

  ghost predicate HasReplicas(sys: Sys, w: World) {
    forall i: nat :: i in w.reps <==> Correct(sys.cfg, i)
  }

  // ----- the network -----

  function Claimant(msg: Wire): nat {
    match msg
    case Hello(id) => id
    case Proposal(_, _, _, sender) => sender
    case PhaseQc(_, _, _, sender) => sender
    case Vote(_, _, _, voter, _) => voter
    case NewViewMsg(_, _, sender) => sender
  }

  /** Correct replicas' signatures inside a certificate were really made. */
  ghost predicate SigsKnown(c: Config, log: Log, qc: QC) {
    forall s: nat | Correct(c, s) && (s, Sig(s, qc.kind, qc.view, qc.node)) in qc.sigs ::
      Ballot(s, qc.kind, qc.view, qc.node) in log
  }

  ghost predicate Unforged(c: Config, log: Log, msg: Wire) {
    match msg
    case Hello(_) => true
    case Proposal(_, _, j, _) => j.Some? ==> SigsKnown(c, log, j.value)
    case PhaseQc(_, _, qc, _) => SigsKnown(c, log, qc)
    case Vote(_, _, _, _, sig) =>
      sig.Sig? && Correct(c, sig.signer) ==> Ballot(sig.signer, sig.kind, sig.view, sig.node) in log
    case NewViewMsg(_, j, _) => j.Some? ==> SigsKnown(c, log, j.value)
  }

  /** A message from a correct replica was sent by it to this receiver; a faulty replica may send
      anything it can build without forging signatures. */
  ghost predicate Deliverable(sys: Sys, w: World, to: nat, msg: Wire)
    requires HasReplicas(sys, w)
  {
    && Claimant(msg) < sys.cfg.n
    && if Correct(sys.cfg, Claimant(msg)) then Envelope(to, msg) in w.reps[Claimant(msg)].io.outbox
       else Unforged(sys.cfg, w.log, msg)
  }

  // ----- steps and runs -----

  /** Replica i moves to r'; its new ballots join the log. */
  function Publish(w: World, i: nat, r': Replica): World
    requires i in w.reps
  {
    var done := |w.reps[i].io.signed|;
    World(w.reps[i := r'], w.log + if done <= |r'.io.signed| then r'.io.signed[done..] else [])
  }

  ghost predicate Step(sys: Sys, w: World, w': World)
    requires ValidSys(sys) && HasReplicas(sys, w)
  {
    exists i, ev: Event, rules: seq<Rule>, r': Replica ::
      && i in w.reps
      && (ev.Deliver? ==> Deliverable(sys, w, i, ev.msg))
      && Turn(EnvOf(sys, i), w.reps[i], ev, rules, r')
      && w' == Publish(w, i, r')
  }

  ghost predicate Init(sys: Sys, w: World)
    requires ValidSys(sys)
  {
    && HasReplicas(sys, w) && w.log == []
    && forall i | i in w.reps :: w.reps[i] == StartProtocol(EnvOf(sys, i), NewReplica(EnvOf(sys, i)))
  }

  ghost predicate StepAt(sys: Sys, ws: seq<World>, k: nat)
    requires ValidSys(sys) && k + 1 < |ws|
  {
    HasReplicas(sys, ws[k]) && Step(sys, ws[k], ws[k + 1])
  }

  /** A run: any finite sequence of worlds, each a step after the one before. */
  ghost predicate IsRun(sys: Sys, ws: seq<World>)
    requires ValidSys(sys)
  {
    && |ws| > 0 && Init(sys, ws[0])
    && forall k: nat | k + 1 < |ws| :: StepAt(sys, ws, k)
  }
}
