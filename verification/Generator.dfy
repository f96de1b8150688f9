/** Workload generator and guest program
    (zkvm/script/src/bin/network.rs, zkvm/program/src/main.rs). */
module Generator {
  import opened Ledger
  import opened Merkle

  const MULTIPLIER: u64 := 6364136223846793005

  /** One step of the wrapping linear congruential generator. */
  function NextSeed(seed: u64): u64 {
    WrapAdd((seed * MULTIPLIER) % U64_RANGE, 1)
  }

  datatype Drawn = Drawn(txs: seq<Tx>, seed: u64)

  function DrawTx(accounts: u32, seed: u64): Drawn
    requires accounts > 0
  {
    var s1 := NextSeed(seed);
    var s2 := NextSeed(s1);
    var s3 := NextSeed(s2);
    var from := s1 % accounts;
    var to := if s2 % accounts == from then (s2 % accounts + 1) % accounts else s2 % accounts;
    Drawn([Tx(from, to, s3 % 10 + 1)], s3)
  }

  function Generate(num: nat, accounts: u32, seed: u64): Drawn
    requires accounts > 0
  {
    if num == 0 then Drawn([], seed)
    else
      var front := Generate(num - 1, accounts, seed);
      var last := DrawTx(accounts, front.seed);
      Drawn(front.txs + last.txs, last.seed)
  }

  method DrawOne(accounts: u32, seed: u64) returns (tx: Tx, next: u64)
    requires accounts > 0
    ensures DrawTx(accounts, seed) == Drawn([tx], next)
  {
    next := WrapAdd((seed * MULTIPLIER) % U64_RANGE, 1);
    var from := next % accounts;
    next := WrapAdd((next * MULTIPLIER) % U64_RANGE, 1);
    var to := next % accounts;
    if to == from {
      to := (to + 1) % accounts;
    }
    next := WrapAdd((next * MULTIPLIER) % U64_RANGE, 1);
    tx := Tx(from, to, next % 10 + 1);
  }

  /** `generate_txs`; the seed goes in and comes out, as through `&mut u64`. */
  method GenerateTxs(num: nat, accounts: u32, seed: u64) returns (txs: seq<Tx>, next: u64)
    requires accounts > 0
    ensures Drawn(txs, next) == Generate(num, accounts, seed)
  {
    txs, next := [], seed;
    for k := 0 to num
      invariant Drawn(txs, next) == Generate(k, accounts, seed)
    {
      var tx;
      tx, next := DrawOne(accounts, next);
      txs := txs + [tx];
    }
  }

  /** A generated block has the asked size, moves 1 to 10 between known accounts, and never to
      the sender unless there is only one account. */
  lemma {:induction false} GeneratedBlock(num: nat, accounts: u32, seed: u64)
    requires accounts > 0
    ensures var txs := Generate(num, accounts, seed).txs;
            && |txs| == num && AccountsBelow(txs, accounts)
            && forall i | 0 <= i < num :: 1 <= txs[i].amount <= 10 && (accounts > 1 ==> txs[i].from != txs[i].to)
  {
    if num > 0 {
      GeneratedBlock(num - 1, accounts, seed);
      DrawnTx(accounts, Generate(num - 1, accounts, seed).seed);
    }
  }

  lemma DrawnTx(accounts: u32, seed: u64)
    requires accounts > 0
    ensures var d := DrawTx(accounts, seed);
            && |d.txs| == 1 && d.txs[0].from < accounts && d.txs[0].to < accounts
            && 1 <= d.txs[0].amount <= 10 && (accounts > 1 ==> d.txs[0].from != d.txs[0].to)
  {
    var s1 := NextSeed(seed);
    NextAccount(s1 % accounts, accounts);
  }

  lemma NextAccount(a: nat, n: nat)
    requires a < n
    ensures (a + 1) % n < n && (n > 1 ==> (a + 1) % n != a)
  {
    if a + 1 < n {
      assert (a + 1) % n == a + 1;
    } else {
      assert (a + 1) % n == 0;
    }
  }

  function GenesisState(accounts: u32, balance: u64): (s: State)
    ensures |s.balances| == accounts
    ensures forall a: u32 :: a in s.balances <==> a < accounts
    ensures forall a | a in s.balances :: s.balances[a] == balance
  {
    if accounts == 0 then State(map[])
    else SetBalance(GenesisState(accounts - 1, balance), accounts - 1, balance)
  }

  /** `generate_initial_state`. */
  method GenerateInitialState(accounts: u32, balance: u64) returns (s: State)
    ensures s == GenesisState(accounts, balance)
  {
    var cell := new StateCell(map[]);
    for i := 0 to accounts
      invariant cell.Value() == GenesisState(i, balance)
    {
      cell.Set(i, balance);
    }
    s := cell.Value();
  }

  // ----- re-batching -----

  datatype Progress = Progress(state: State, seed: u64)

  /** State and seed after generating and applying blocks of the given sizes. */
  function RunBatches(p: Progress, accounts: u32, sizes: seq<nat>): Progress
    requires accounts > 0
  {
    if sizes == [] then p
    else
      var q := RunBatches(p, accounts, sizes[..|sizes| - 1]);
      var d := Generate(sizes[|sizes| - 1], accounts, q.seed);
      Progress(ApplyBlock(q.state, d.txs), d.seed)
  }

  function Sum(sizes: seq<nat>): nat {
    if sizes == [] then 0 else Sum(sizes[..|sizes| - 1]) + sizes[|sizes| - 1]
  }

  lemma {:induction false} GenerateSplit(a: nat, b: nat, accounts: u32, seed: u64)
    requires accounts > 0
    ensures var front := Generate(a, accounts, seed);
            var back := Generate(b, accounts, front.seed);
            Generate(a + b, accounts, seed) == Drawn(front.txs + back.txs, back.seed)
  {
    if b > 0 {
      GenerateSplit(a, b - 1, accounts, seed);
      var front := Generate(a, accounts, seed);
      var mid := Generate(b - 1, accounts, front.seed);
      var last := DrawTx(accounts, mid.seed);
      assert front.txs + (mid.txs + last.txs) == front.txs + mid.txs + last.txs;
    } else {
      var front := Generate(a, accounts, seed);
      assert front.txs + [] == front.txs;
    }
  }

  lemma BatchAfter(p: Progress, accounts: u32, m: nat, k: nat)
    requires accounts > 0
    ensures var d := Generate(m, accounts, p.seed);
            var e := Generate(k, accounts, d.seed);
            var both := Generate(m + k, accounts, p.seed);
            && both.seed == e.seed
            && ApplyBlock(p.state, both.txs) == ApplyBlock(ApplyBlock(p.state, d.txs), e.txs)
  {
    GenerateSplit(m, k, accounts, p.seed);
    var d := Generate(m, accounts, p.seed);
    ApplyBlockConcat(p.state, d.txs, Generate(k, accounts, d.seed).txs);
  }

  /** Where the stream is cut into blocks does not matter: state and seed depend on the total. */
  lemma {:induction false} BatchesAsOne(p: Progress, accounts: u32, sizes: seq<nat>)
    requires accounts > 0
    ensures var d := Generate(Sum(sizes), accounts, p.seed);
            RunBatches(p, accounts, sizes) == Progress(ApplyBlock(p.state, d.txs), d.seed)
  {
    if sizes != [] {
      var front, k := sizes[..|sizes| - 1], sizes[|sizes| - 1];
      BatchesAsOne(p, accounts, front);
      BatchAfter(p, accounts, Sum(front), k);
    }
  }

  /** Re-batching: two partitions of the same total end in the same state, seed and root. */
  lemma Rebatching(p: Progress, accounts: u32, sizes: seq<nat>, sizes': seq<nat>)
    requires accounts > 0 && Sum(sizes) == Sum(sizes')
    ensures RunBatches(p, accounts, sizes) == RunBatches(p, accounts, sizes')
  {
    BatchesAsOne(p, accounts, sizes);
    BatchesAsOne(p, accounts, sizes');
  }

  // ----- guest program and the generated workload -----

  datatype BlockCommit = BlockCommit(pre: Digest, post: Digest, txHash: Digest)

  /** What a valid proof attests: the public values of one guest run. */
  function Attested(s: State, txs: seq<Tx>): BlockCommit
    requires |s.balances| <= 0x8000_0000 && |ApplyBlock(s, txs).balances| <= 0x8000_0000
  {
    BlockCommit(Root(s), Root(ApplyBlock(s, txs)), TxList(txs))
  }

  datatype GuestResult = Committed(commit: BlockCommit) | GuestPanic

  /** The guest program. */
  method Guest(s: State, txs: seq<Tx>) returns (r: GuestResult)
    ensures r.GuestPanic? <==> |s.balances| > 0x8000_0000 || |ApplyBlock(s, txs).balances| > 0x8000_0000
    ensures r.Committed? ==> r.commit == Attested(s, txs)
  {
    var pre := ComputeStateRoot(s);
    if pre.Panic? { return GuestPanic; }
    var txHash := HashTransactions(txs);
    var cell := new StateCell(s.balances);
    var _ := cell.Apply(txs);
    var post := ComputeStateRoot(cell.Value());
    if post.Panic? { return GuestPanic; }
    r := Committed(BlockCommit(pre.digest, post.digest, txHash));
  }

  datatype Params = Params(accounts: u32, balance: u64, numTxs: nat)

  predicate ValidParams(w: Params) {
    0 < w.accounts <= 0x8000_0000
  }

  /** State and seed in front of block k of an uninterrupted run. */
  function Before(w: Params, k: nat): Progress
    requires ValidParams(w)
  {
    if k == 0 then Progress(GenesisState(w.accounts, w.balance), 12345)
    else
      var p := Before(w, k - 1);
      var d := Generate(w.numTxs, w.accounts, p.seed);
      Progress(ApplyBlock(p.state, d.txs), d.seed)
  }

  function BlockTxs(w: Params, k: nat): seq<Tx>
    requires ValidParams(w)
  {
    Generate(w.numTxs, w.accounts, Before(w, k).seed).txs
  }

  /** Every block of the generated workload keeps the state dense and touches only its accounts. */
  lemma {:induction false} WorkloadDense(w: Params, k: nat)
    requires ValidParams(w)
    ensures Dense(Before(w, k).state) && w.accounts <= Width(Before(w, k).state)
    ensures AccountsBelow(BlockTxs(w, k), w.accounts)
  {
    GeneratedBlock(w.numTxs, w.accounts, Before(w, k).seed);
    if k > 0 {
      WorkloadDense(w, k - 1);
      BlockKeepsWidth(Before(w, k - 1).state, BlockTxs(w, k - 1));
    }
  }

  function Meta(w: Params, k: nat): BlockCommit
    requires ValidParams(w)
  {
    WorkloadDense(w, k);
    WorkloadDense(w, k + 1);
    Attested(Before(w, k).state, BlockTxs(w, k))
  }

  /** Replaying the skipped blocks of a resumed run reconstructs the state and seed. */
  method Replay(w: Params, resumeFrom: nat) returns (s: State, seed: u64)
    requires ValidParams(w)
    ensures Progress(s, seed) == Before(w, resumeFrom)
  {
    s := GenerateInitialState(w.accounts, w.balance);
    var cell := new StateCell(s.balances);
    seed := 12345;
    for k := 0 to resumeFrom
      invariant Progress(cell.Value(), seed) == Before(w, k)
    {
      var block;
      block, seed := GenerateTxs(w.numTxs, w.accounts, seed);
      var _ := cell.Apply(block);
    }
    s := cell.Value();
  }

  /** One pass of the generating loop: block k, its commit, and the state and seed after it. */
  method EmitBlock(w: Params, k: nat, s: State, seed: u64)
    returns (block: seq<Tx>, commit: BlockCommit, s': State, seed': u64)
    requires ValidParams(w) && Progress(s, seed) == Before(w, k)
    ensures block == BlockTxs(w, k) && commit == Meta(w, k) && Progress(s', seed') == Before(w, k + 1)
  {
    WorkloadDense(w, k);
    WorkloadDense(w, k + 1);
    block, seed' := GenerateTxs(w.numTxs, w.accounts, seed);
    var run := Guest(s, block);
    commit := run.commit;
    var cell := new StateCell(s.balances);
    var _ := cell.Apply(block);
    s' := cell.Value();
  }

  /** Blocks from..to-1 of the uninterrupted run, with their commits. */
  function Emitted(w: Params, from: nat, to: nat): (r: seq<(seq<Tx>, BlockCommit)>)
    requires ValidParams(w) && from <= to
    ensures |r| == to - from
  {
    if from == to then [] else Emitted(w, from, to - 1) + [(BlockTxs(w, to - 1), Meta(w, to - 1))]
  }

  /** The generator with `--resume-from`. */
  method GenerateWorkload(w: Params, resumeFrom: nat, numBlocks: nat) returns (blocks: seq<(seq<Tx>, BlockCommit)>)
    requires ValidParams(w)
    ensures blocks == if resumeFrom <= numBlocks then Emitted(w, resumeFrom, numBlocks) else []
  {
    var s, seed := Replay(w, resumeFrom);
    blocks := [];
    if resumeFrom > numBlocks {
      return;
    }
    for k := resumeFrom to numBlocks
      invariant Progress(s, seed) == Before(w, k)
      invariant blocks == Emitted(w, resumeFrom, k)
    {
      var block, commit;
      block, commit, s, seed := EmitBlock(w, k, s, seed);
      blocks := blocks + [(block, commit)];
    }
  }

  /** Resuming at block k yields the tail of the uninterrupted run. */
  lemma {:induction false} ResumeIsTail(w: Params, k: nat, numBlocks: nat)
    requires ValidParams(w) && k <= numBlocks
    ensures Emitted(w, 0, numBlocks)[k..] == Emitted(w, k, numBlocks)
  {
    if k < numBlocks {
      ResumeIsTail(w, k, numBlocks - 1);
    }
  }

  /** Consecutive blocks chain: the post-root of one is the pre-root of the next. */
  lemma MetaChains(w: Params, k: nat)
    requires ValidParams(w)
    ensures Meta(w, k).post == Meta(w, k + 1).pre
  {
    WorkloadDense(w, k);
    WorkloadDense(w, k + 1);
  }

  // ----- the stream in closed form -----

  function Power(m: nat): nat {
    if m == 0 then 1 else 6364136223846793005 * Power(m - 1)
  }

  /** 1 + a + ... + a^(m-1). */
  function Geometric(m: nat): nat {
    if m == 0 then 0 else 6364136223846793005 * Geometric(m - 1) + 1
  }

  /** Seed after m steps of x -> a * x + 1 modulo 2^64. */
  function SeedAt(seed: u64, m: nat): u64 {
    (Power(m) * seed + Geometric(m)) % 0x1_0000_0000_0000_0000
  }

  lemma ModStep(x: nat, a: nat, m: nat)
    requires m > 1
    ensures ((x % m * a) % m + 1) % m == (a * x + 1) % m
  {
    var q := x / m;
    assert x == q * m + x % m;
    var r := x % m * a;
    assert a * x + 1 == (a * q) * m + (r + 1);
    ModAdd(a * q, r + 1, m);
    var p := r / m;
    assert r == p * m + r % m;
    assert r + 1 == p * m + (r % m + 1);
    ModAdd(p, r % m + 1, m);
  }

  lemma {:induction false} ModAdd(k: nat, x: nat, m: nat)
    requires m > 0
    ensures (k * m + x) % m == x % m
  {
    if k > 0 {
      ModAdd(k - 1, x, m);
      assert k * m + x == ((k - 1) * m + x) + m;
      ModOne((k - 1) * m + x, m);
    }
  }

  lemma ModOne(x: nat, m: nat)
    requires m > 0
    ensures (x + m) % m == x % m
  {
    var q := x / m;
    assert x == q * m + x % m;
    assert x + m == (q + 1) * m + x % m;
    DivUnique(x + m, m, q + 1, x % m);
  }

  lemma DivUnique(x: nat, m: nat, q: nat, r: nat)
    requires m > 0 && x == q * m + r && r < m
    ensures x % m == r
  {
    var q', r' := x / m, x % m;
    assert x == q' * m + r';
    if q > q' { Apart(q, q', m); } else if q' > q { Apart(q', q, m); }
  }

  lemma Apart(a: nat, b: nat, m: nat)
    requires a > b
    ensures a * m >= b * m + m
  {
    Times(b, a - b, m);
  }

  lemma Times(b: nat, d: nat, m: nat)
    ensures (b + d) * m == b * m + d * m
  {
  }

  lemma SeedStep(seed: u64, m: nat)
    ensures NextSeed(SeedAt(seed, m)) == SeedAt(seed, m + 1)
  {
    var x := Power(m) * seed + Geometric(m);
    ModStep(x, 6364136223846793005, 0x1_0000_0000_0000_0000);
    assert 6364136223846793005 * x + 1 == Power(m + 1) * seed + Geometric(m + 1);
  }

  /** Three draws per transaction: after k transactions the seed is 3k steps on. */
  lemma {:induction false} StreamSeed(k: nat, accounts: u32, seed: u64)
    requires accounts > 0
    ensures Generate(k, accounts, seed).seed == SeedAt(seed, 3 * k)
  {
    if k > 0 {
      StreamSeed(k - 1, accounts, seed);
      var m := 3 * (k - 1);
      SeedStep(seed, m);
      SeedStep(seed, m + 1);
      SeedStep(seed, m + 2);
    }
  }

  /** Transaction k of the stream, field by field, from the seeds of its three draws. */
  lemma {:induction false} StreamTx(num: nat, k: nat, accounts: u32, seed: u64)
    requires accounts > 0 && k < num
    ensures |Generate(num, accounts, seed).txs| == num
    ensures var tx := Generate(num, accounts, seed).txs[k];
            var drawn := SeedAt(seed, 3 * k + 2) % accounts;
            && tx.from == SeedAt(seed, 3 * k + 1) % accounts
            && tx.to == (if drawn == tx.from then (drawn + 1) % accounts else drawn)
            && tx.amount == SeedAt(seed, 3 * k + 3) % 10 + 1
  {
    GeneratedBlock(num, accounts, seed);
    GeneratedBlock(num - 1, accounts, seed);
    if k < num - 1 {
      StreamTx(num - 1, k, accounts, seed);
    } else {
      StreamSeed(k, accounts, seed);
      DrawnFields(k, accounts, seed);
    }
  }

  lemma DrawnFields(k: nat, accounts: u32, seed: u64)
    requires accounts > 0
    ensures var tx := DrawTx(accounts, SeedAt(seed, 3 * k)).txs[0];
            var drawn := SeedAt(seed, 3 * k + 2) % accounts;
            && tx.from == SeedAt(seed, 3 * k + 1) % accounts
            && tx.to == (if drawn == tx.from then (drawn + 1) % accounts else drawn)
            && tx.amount == SeedAt(seed, 3 * k + 3) % 10 + 1
  {
    SeedStep(seed, 3 * k);
    SeedStep(seed, 3 * k + 1);
    SeedStep(seed, 3 * k + 2);
  }

  lemma BlockSeed(w: Params, k: nat, m: nat)
    requires ValidParams(w) && Before(w, k).seed == SeedAt(12345, m)
    ensures Before(w, k + 1).seed == SeedAt(12345, m + 3 * w.numTxs)
  {
    StreamSeed(w.numTxs, w.accounts, Before(w, k).seed);
    SeedJump(12345, m, 3 * w.numTxs);
  }

  lemma StartSeed()
    ensures SeedAt(12345, 0) == 12345
  {
  }

  /** Steps of the generator before block k. */
  function StepsBefore(w: Params, k: nat): nat {
    if k == 0 then 0 else StepsBefore(w, k - 1) + 3 * w.numTxs
  }

  /** Block k of the workload starts three steps per earlier transaction after seed 12345. */
  lemma {:induction false} WorkloadSeed(w: Params, k: nat)
    requires ValidParams(w)
    ensures Before(w, k).seed == SeedAt(12345, StepsBefore(w, k))
  {
    if k == 0 {
      StartSeed();
    } else {
      WorkloadSeed(w, k - 1);
      BlockSeed(w, k - 1, StepsBefore(w, k - 1));
    }
  }

  lemma {:induction false} SeedJump(seed: u64, a: nat, b: nat)
    ensures SeedAt(SeedAt(seed, a), b) == SeedAt(seed, a + b)
  {
    if b > 0 {
      SeedJump(seed, a, b - 1);
      SeedStep(SeedAt(seed, a), b - 1);
      SeedStep(seed, a + b - 1);
    }
  }
}
