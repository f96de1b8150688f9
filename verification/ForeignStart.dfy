/** The node does not compare the first proof's pre-root with genesis
    (node/consensus-node/src/consensus/execute.rs:77-78). What a first proof from another state does. */
module ForeignStart {
  import opened Messages
  import opened Ancestry
  import opened Ledger
  import opened Merkle
  import opened Generator
  import opened Execution
  import opened ExecutionProofs

  // ----- a verifying node that ends with a wrong root -----

  /** Empty blocks over a ledger with one account; the proofs ran on another balance. */
  function Wrong(n: nat, me: nat, base: nat): Env {
    Env(n, me, base, 1, (k: nat) => Block(TxList([]), [], Some(Attested(State(map[0 := 1]), []))),
        Verify, State(map[0 := 2]))
  }

  function First(): Hash { NodeHash(Node(Genesis, TxList([]), 0)) }

  lemma SingleRoot(v: u64)
    ensures var s := State(map[0 := v]); Dense(s) && Root(s) == Leaf(0, v)
  {
    var s := State(map[0 := v]);
    assert |s.balances| == 1;
    assert Width(s) == 1;
  }

  lemma WrongIsSound(n: nat, me: nat, base: nat)
    ensures var env := Wrong(n, me, base);
            DenseWorkload(env) && SoundProofs(env) && !FromGenesis(env) && !FirstClaimRight(env)
    ensures RootOrZero(Fold(Wrong(n, me, base), 1)) == Leaf(0, 2)
  {
    var env := Wrong(n, me, base);
    SingleRoot(1);
    SingleRoot(2);
    forall k: nat ensures DenseAt(env, k) && SoundAt(env, k) {
      assert AttestedFrom(env, k, State(map[0 := 1]));
    }
    assert Fold(env, 1) == ApplyBlock(env.genesis, []);
  }

  /** A fresh node asks for the first node's validation, accepts its proof and executes it. */
  function Run(env: Env): Exec {
    var tree: Tree := map[First() := First().node];
    var kicked := MaybeKick(env, tree, NewExec(env), First());
    var validated := if kicked.requests == [] then kicked else Validated(env, kicked, true);
    TryExecute(env, tree, validated, First())
  }

  lemma RunExecutes(n: nat, me: nat, base: nat)
    ensures var ex := Run(Wrong(n, me, base));
            ex.last == 0 && ex.executed == [First()] && !ex.panicked && ex.chained == Root(State(map[0 := 1]))
  {
    var env := Wrong(n, me, base);
    var tree: Tree := map[First() := First().node];
    var req := Request(First(), 0, State(map[]));
    var kicked := MaybeKick(env, tree, NewExec(env), First());
    assert kicked == NewExec(env).(pending := Some(First()), requests := [req]);
    SingleRoot(1);
    var ex := Validated(env, kicked, true);
    assert ex.validation == map[First() := true] && ex.last == -1;
    assert Chain(tree, -1, First()) == [First()];
    assert [First()][1..] == [];
    assert RunChain(env, tree, ex, [First()]) == Apply(tree, ex, First());
  }

  /** Dense, sound proofs and no chain break, and still the node's root after the first block is not
      that of the ledger. */
  lemma ForeignStartDiverges(n: nat, me: nat, base: nat)
    ensures var env := Wrong(n, me, base);
            && DenseWorkload(env) && SoundProofs(env) && !FromGenesis(env)
            && Run(env).last == 0 && !Run(env).panicked
            && Run(env).chained == Leaf(0, 1) && RootOrZero(Fold(env, 1)) == Leaf(0, 2)
  {
    WrongIsSound(n, me, base);
    RunExecutes(n, me, base);
    SingleRoot(1);
  }

  // ----- another start that does no harm -----

  function Pay(): seq<Tx> { [Tx(0, 1, 1)] }

  /** The proofs pay 1 from account 0 to account 1; at genesis it is already there, so nothing moves. */
  function Lucky(n: nat, me: nat, base: nat): Env
  {
    SmallRoots();
    Env(n, me, base, 1, (k: nat) => Block(TxList(Pay()), Pay(), Some(Attested(State(map[0 := 1, 1 := 0]), Pay()))),
        Verify, State(map[0 := 0, 1 := 1]))
  }

  lemma SmallRoots()
    ensures ApplyBlock(State(map[0 := 1, 1 := 0]), Pay()) == State(map[0 := 0, 1 := 1])
    ensures ApplyBlock(State(map[0 := 0, 1 := 1]), Pay()) == State(map[0 := 0, 1 := 1])
    ensures Dense(State(map[0 := 1, 1 := 0])) && Dense(State(map[0 := 0, 1 := 1]))
    ensures Width(State(map[0 := 1, 1 := 0])) == Width(State(map[0 := 0, 1 := 1])) == 2
  {
    var s, t := State(map[0 := 1, 1 := 0]), State(map[0 := 0, 1 := 1]);
    assert Pay()[..0] == [];
    assert ApplyBlock(s, Pay()) == ApplyTx(s, Tx(0, 1, 1)) && ApplyBlock(t, Pay()) == ApplyTx(t, Tx(0, 1, 1));
    assert ApplyTx(s, Tx(0, 1, 1)).balances == t.balances;
    assert |s.balances| == 2 && |t.balances| == 2;
    assert DoubleUpTo(2, 1) == DoubleUpTo(2, 2) == 2;
  }

  /** So starting at genesis is not the exact condition; claiming the right first post-root is. */
  lemma ForeignStartCanAgree(n: nat, me: nat, base: nat)
    ensures var env := Lucky(n, me, base);
            DenseWorkload(env) && SoundProofs(env) && !FromGenesis(env) && FirstClaimRight(env)
  {
    var env := Lucky(n, me, base);
    var s := State(map[0 := 1, 1 := 0]);
    SmallRoots();
    forall k: nat ensures DenseAt(env, k) && SoundAt(env, k) {
      assert AttestedFrom(env, k, s);
    }
    RootEqualIff(s, env.genesis);
    assert Balance(s, 0) != Balance(env.genesis, 0);
    assert Fold(env, 1) == ApplyBlock(Fold(env, 0), env.blocks(0).txs);
  }
}
