/** Why execution needs height-consistent branches: the proposal handler takes the height of a node
    as it comes (node/consensus-node/src/consensus/handlers.rs:70-72). One node with a lied height,
    and two replicas that saw the same nodes decided in different orders end in different states. */
module LiedHeights {
  import opened Messages
  import opened Ancestry
  import opened Ledger
  import opened Execution

  // ----- the branch: heights 0, 1, 0, 1 -----

  function Pay(): seq<Tx> { [Tx(0, 1, 1)] }

  function NodeA(): Hash { NodeHash(Node(Genesis, TxList(Pay()), 0)) }
  function NodeX(): Hash { NodeHash(Node(NodeA(), TxList([]), 1)) }
  function NodeB(): Hash { NodeHash(Node(NodeX(), TxList(Pay()), 0)) }
  function NodeC(): Hash { NodeHash(Node(NodeB(), TxList([]), 1)) }

  function LiedTree(): Tree {
    map[NodeA() := NodeA().node, NodeX() := NodeX().node, NodeB() := NodeB().node, NodeC() := NodeC().node]
  }

  /** A re-executing node on a workload whose block 0 pays 1 from account 0 to account 1. */
  function LiedEnv(n: nat, me: nat, base: nat): Env {
    Env(n, me, base, 2, (k: nat) => if k == 0 then Block(TxList(Pay()), Pay(), None) else Block(TxList([]), [], None),
        Reexecute, State(map[0 := 5]))
  }

  /** Only B lies. */
  lemma OnlyOneLie()
    ensures HeightStep(NodeA().node) && HeightStep(NodeX().node) && HeightStep(NodeC().node)
    ensures !HeightStep(NodeB().node)
    ensures Extends(NodeC(), NodeA())
  {
    assert Extends(NodeX(), NodeA()) && Extends(NodeB(), NodeA());
  }

  // ----- all four are validated before any is decided -----

  function KickAndValidate(env: Env, tree: Tree, ex: Exec, h: Hash): Exec {
    var kicked := MaybeKick(env, tree, ex, h);
    if kicked.requests == [] then kicked else Validated(env, kicked, true)
  }

  lemma ValidatesOn(env: Env, tree: Tree, ex: Exec, h: Hash, input: State)
    requires env.mode == Reexecute && h in tree && h !in ex.validation && ex.pending.None? && ex.requests == []
    requires tree[h].height < env.numBlocks && env.blocks(tree[h].height).cmd == tree[h].cmd
    requires InputState(tree, ex, tree[h]) == Some(input)
    ensures KickAndValidate(env, tree, ex, h)
         == ex.(validation := ex.validation[h := true],
                postState := ex.postState[h := ApplyBlock(input, env.blocks(tree[h].height).txs)])
  {
    var req := Request(h, tree[h].height, input);
    assert MaybeKick(env, tree, ex, h) == ex.(pending := Some(h), requests := [req]);
    assert [req][1..] == [];
  }

  function AllValidated(env: Env): Exec {
    var t := LiedTree();
    var one := KickAndValidate(env, t, NewExec(env), NodeA());
    var two := KickAndValidate(env, t, one, NodeX());
    var three := KickAndValidate(env, t, two, NodeB());
    KickAndValidate(env, t, three, NodeC())
  }

  function Paid(times: nat): State
    requires times <= 5
  {
    if times == 0 then State(map[0 := 5]) else State(map[0 := 5 - times, 1 := times])
  }

  lemma PayOnce(times: nat)
    requires times < 5
    ensures ApplyBlock(Paid(times), Pay()) == Paid(times + 1)
  {
    var s := Paid(times);
    assert Pay()[..0] == [];
    assert ApplyBlock(s, Pay()) == ApplyTx(s, Tx(0, 1, 1));
    assert ApplyTx(s, Tx(0, 1, 1)).balances == Paid(times + 1).balances;
  }

  function Prepared(env: Env): Exec {
    NewExec(env).(validation := map[NodeA() := true, NodeX() := true, NodeB() := true, NodeC() := true],
                  postState := map[NodeA() := Paid(1), NodeX() := Paid(1), NodeB() := Paid(2), NodeC() := Paid(2)])
  }

  lemma AllFourValidate(n: nat, me: nat, base: nat)
    ensures var env := LiedEnv(n, me, base); AllValidated(env) == Prepared(env)
  {
    var env, t := LiedEnv(n, me, base), LiedTree();
    PayOnce(0);
    PayOnce(1);
    var ex := NewExec(env);
    ValidatesOn(env, t, ex, NodeA(), Paid(0));
    ex := KickAndValidate(env, t, ex, NodeA());
    ValidatesOn(env, t, ex, NodeX(), Paid(1));
    ex := KickAndValidate(env, t, ex, NodeX());
    ValidatesOn(env, t, ex, NodeB(), Paid(1));
    ex := KickAndValidate(env, t, ex, NodeB());
    ValidatesOn(env, t, ex, NodeC(), Paid(2));
    ex := KickAndValidate(env, t, ex, NodeC());
    assert ex.validation == Prepared(env).validation && ex.postState == Prepared(env).postState;
  }

  // ----- two orders of the same two DECIDEs -----

  lemma Chains()
    ensures var t := LiedTree();
            Chain(t, -1, NodeA()) == [NodeA()] && Chain(t, 0, NodeC()) == [NodeC()] && Chain(t, 1, NodeA()) == []
    ensures Chain(LiedTree(), -1, NodeC()) == [NodeA(), NodeX(), NodeB(), NodeC()]
  {
    var t := LiedTree();
    assert Chain(t, -1, NodeX()) == [NodeA(), NodeX()];
    assert Chain(t, -1, NodeB()) == [NodeA(), NodeX()] + [NodeB()];
    assert Chain(t, 0, NodeB()) == [];
  }

  lemma RunOne(env: Env, tree: Tree, ex: Exec, h: Hash)
    requires h in tree && Ready(tree, ex, h) && !ex.panicked
    ensures RunChain(env, tree, ex, [h]) == Apply(tree, ex, h)
  {
    assert [h][1..] == [];
  }

  lemma LowFirst(n: nat, me: nat, base: nat)
    ensures var env := LiedEnv(n, me, base);
            var ex := TryExecute(env, LiedTree(), TryExecute(env, LiedTree(), Prepared(env), NodeA()), NodeC());
            ex.last == 1 && ex.executed == [NodeA(), NodeC()] && ex.live == Paid(2)
  {
    var env, t := LiedEnv(n, me, base), LiedTree();
    var ex := Prepared(env);
    Chains();
    RunOne(env, t, ex, NodeA());
    RunOne(env, t, Apply(t, ex, NodeA()), NodeC());
  }

  lemma TwoThenStuck(env: Env, tree: Tree, ex: Exec, a: Hash, x: Hash, b: Hash, c: Hash)
    requires a in tree && x in tree && b in tree && c in tree && a in ex.validation && x in ex.validation
    requires tree[a].height == 0 && tree[x].height == 1 && tree[b].height == 0 && ex.last == -1
    requires ex.validation[a] && ex.validation[x] && ex.preRoot == map[] && !ex.panicked
    ensures RunChain(env, tree, ex, [a, x, b, c]) == Apply(tree, Apply(tree, ex, a), x)
  {
    var e1 := Apply(tree, ex, a);
    var e2 := Apply(tree, e1, x);
    var chain := [a, x, b, c];
    assert chain[1..] == [x, b, c] && chain[1..][1..] == [b, c];
    assert RunChain(env, tree, e2, [b, c]) == e2;
    assert RunChain(env, tree, e1, [x, b, c]) == e2;
  }

  lemma RunTop(env: Env)
    ensures var t, ex := LiedTree(), Prepared(env);
            TryExecute(env, t, ex, NodeC()) == Apply(t, Apply(t, ex, NodeA()), NodeX())
  {
    Chains();
    TwoThenStuck(env, LiedTree(), Prepared(env), NodeA(), NodeX(), NodeB(), NodeC());
  }

  lemma TopFirst(n: nat, me: nat, base: nat)
    ensures var env := LiedEnv(n, me, base);
            var ex := TryExecute(env, LiedTree(), TryExecute(env, LiedTree(), Prepared(env), NodeC()), NodeA());
            ex.last == 1 && ex.executed == [NodeA(), NodeX()] && ex.live == Paid(1)
  {
    RunTop(LiedEnv(n, me, base));
    Chains();
  }

  /** Two replicas start alike, validate the same four nodes and see A and C decided. The one that
      sees A first executes A and C, the other A and X. Both are at height 1, and account 1 holds 2
      at the one and 1 at the other. */
  lemma DecideOrderMatters(n: nat, me: nat, base: nat)
    ensures var env, t := LiedEnv(n, me, base), LiedTree();
            var one := TryExecute(env, t, TryExecute(env, t, AllValidated(env), NodeA()), NodeC());
            var two := TryExecute(env, t, TryExecute(env, t, AllValidated(env), NodeC()), NodeA());
            && one.last == 1 && one.executed == [NodeA(), NodeC()] && Balance(one.live, 1) == 2
            && two.last == 1 && two.executed == [NodeA(), NodeX()] && Balance(two.live, 1) == 1
  {
    AllFourValidate(n, me, base);
    LowFirst(n, me, base);
    TopFirst(n, me, base);
  }
}
