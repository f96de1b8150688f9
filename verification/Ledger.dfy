/** Ledger state transition function (crates/ledger-core/src/lib.rs).

    Balances are u64 and a credit wraps as in a release build; `NoOverflow`
    says when it does not. */
module Ledger {
  const U32_RANGE: nat := 0x1_0000_0000
  const U64_RANGE: nat := 0x1_0000_0000_0000_0000

  type u32 = x: int | 0 <= x < 0x1_0000_0000
  type u64 = x: int | 0 <= x < 0x1_0000_0000_0000_0000

  datatype Tx = Tx(from: u32, to: u32, amount: u64)

  /** Symbolic SHA-256 digests: a leaf, an inner node, a transaction list, or the zero bytes. */
  datatype Digest =
    | Zero
    | Leaf(account: nat, balance: nat)
    | Inner(left: Digest, right: Digest)
    | TxList(txs: seq<Tx>)

  datatype State = State(balances: map<u32, u64>)

  function Balance(s: State, account: u32): u64 {
    if account in s.balances then s.balances[account] else 0
  }

  function SetBalance(s: State, account: u32, amount: u64): State {
    State(s.balances[account := amount])
  }

  function WrapAdd(a: u64, b: u64): u64 {
    (a + b) % U64_RANGE
  }

  predicate Applies(s: State, tx: Tx) {
    Balance(s, tx.from) >= tx.amount && tx.amount > 0 && tx.from != tx.to
  }

  function ApplyTx(s: State, tx: Tx): State {
    if Applies(s, tx) then
      SetBalance(SetBalance(s, tx.from, Balance(s, tx.from) - tx.amount),
                 tx.to, WrapAdd(Balance(s, tx.to), tx.amount))
    else s
  }

  function ApplyBlock(s: State, txs: seq<Tx>): State {
    if txs == [] then s else ApplyTx(ApplyBlock(s, txs[..|txs| - 1]), txs[|txs| - 1])
  }

  /** Number of transactions that took effect, as the u32 counter holds it. */
  function AppliedCount(s: State, txs: seq<Tx>): u32 {
    if txs == [] then 0 else
      var k := AppliedCount(s, txs[..|txs| - 1]);
      if Applies(ApplyBlock(s, txs[..|txs| - 1]), txs[|txs| - 1]) then (k + 1) % U32_RANGE else k
  }

  // ----- what a transfer does to single balances -----

  /** Reading back: the written account holds the amount, the others what they held, and an account
      never written holds nothing. */
  lemma ReadBack(s: State, account: u32, amount: u64, a: u32)
    ensures Balance(SetBalance(s, account, amount), a) == if a == account then amount else Balance(s, a)
    ensures Balance(State(map[]), a) == 0
  {
  }

  /** One transfer, account by account. A transfer between two accounts that the sender can pay, of
      a positive amount, takes effect: the sender has it less, the receiver has it more modulo 2^64,
      all others keep what they have. Any other transfer changes nothing. */
  lemma TransferLaw(s: State, tx: Tx, a: u32)
    ensures var s' := ApplyTx(s, tx);
            if tx.from != tx.to && 0 < tx.amount <= Balance(s, tx.from) then
              && (a == tx.from ==> Balance(s', a) == Balance(s, a) - tx.amount)
              && (a == tx.to ==> Balance(s', a) == (Balance(s, a) + tx.amount) % 0x1_0000_0000_0000_0000)
              && (a != tx.from && a != tx.to ==> Balance(s', a) == Balance(s, a))
            else s' == s
  {
  }

  /** A block is its transfers in order: each acts on the state that the ones before it left. */
  lemma BlockLaw(s: State, txs: seq<Tx>, i: nat)
    requires i < |txs|
    ensures ApplyBlock(s, txs[..0]) == s && ApplyBlock(s, txs[..|txs|]) == ApplyBlock(s, txs)
    ensures ApplyBlock(s, txs[..i + 1]) == ApplyTx(ApplyBlock(s, txs[..i]), txs[i])
  {
    assert txs[..|txs|] == txs;
    assert txs[..i + 1][..i] == txs[..i];
  }

  /** The transfer at position i takes effect in the state it meets. */
  ghost predicate Effective(s: State, txs: seq<Tx>, i: nat)
    requires i < |txs|
  {
    txs[i].from != txs[i].to && 0 < txs[i].amount <= Balance(ApplyBlock(s, txs[..i]), txs[i].from)
  }

  ghost function EffectiveSet(s: State, txs: seq<Tx>): set<nat> {
    set i: nat | i < |txs| && Effective(s, txs, i)
  }

  lemma EffectiveStep(s: State, txs: seq<Tx>)
    requires txs != []
    ensures var m := |txs| - 1;
            EffectiveSet(s, txs) == EffectiveSet(s, txs[..m]) + if Effective(s, txs, m) then {m} else {}
  {
    var m := |txs| - 1;
    forall i: nat | i < m ensures Effective(s, txs, i) <==> Effective(s, txs[..m], i) {
      assert txs[..m][..i] == txs[..i];
    }
  }

  lemma EffectiveCount(s: State, txs: seq<Tx>)
    requires txs != []
    ensures var m := |txs| - 1;
            |EffectiveSet(s, txs)| == |EffectiveSet(s, txs[..m])| + if Effective(s, txs, m) then 1 else 0
  {
    EffectiveStep(s, txs);
  }

  lemma CountStep(s: State, txs: seq<Tx>)
    requires txs != []
    ensures var m := |txs| - 1;
            AppliedCount(s, txs) == (AppliedCount(s, txs[..m]) + if Effective(s, txs, m) then 1 else 0) % 0x1_0000_0000
  {
  }

  lemma CountUp(a: nat, b: nat, c: nat)
    requires a == b % 0x1_0000_0000
    ensures (a + c) % 0x1_0000_0000 == (b + c) % 0x1_0000_0000
  {
  }

  /** The returned count is the number of transfers that take effect, as a u32 holds it. */
  lemma {:induction false} CountLaw(s: State, txs: seq<Tx>)
    ensures AppliedCount(s, txs) == |EffectiveSet(s, txs)| % 0x1_0000_0000
    decreases |txs|
  {
    if txs == [] {
      assert EffectiveSet(s, txs) == {};
    } else {
      var m := |txs| - 1;
      CountLaw(s, txs[..m]);
      EffectiveCount(s, txs);
      CountStep(s, txs);
      CountUp(AppliedCount(s, txs[..m]), |EffectiveSet(s, txs[..m])|, if Effective(s, txs, m) then 1 else 0);
    }
  }

  /** The mutable ledger of the source. */
  class StateCell {
    var balances: map<u32, u64>

    constructor (initial: map<u32, u64>)
      ensures balances == initial
    {
      balances := initial;
    }

    function Value(): State
      reads this
    {
      State(balances)
    }

    method Set(account: u32, amount: u64)
      modifies this
      ensures Value() == SetBalance(old(Value()), account, amount)
    {
      balances := balances[account := amount];
    }

    /** `apply_block`: transfers in order, skipping those the sender cannot pay for. */
    method Apply(txs: seq<Tx>) returns (applied: u32)
      modifies this
      ensures Value() == ApplyBlock(old(Value()), txs)
      ensures applied == AppliedCount(old(Value()), txs)
    {
      applied := 0;
      for i := 0 to |txs|
        invariant Value() == ApplyBlock(old(Value()), txs[..i])
        invariant applied == AppliedCount(old(Value()), txs[..i])
      {
        var tx := txs[i];
        assert txs[..i + 1][..i] == txs[..i];
        var fromBal := Balance(Value(), tx.from);
        if fromBal >= tx.amount && tx.amount > 0 && tx.from != tx.to {
          Set(tx.from, fromBal - tx.amount);
          var toBal := Balance(Value(), tx.to);
          Set(tx.to, WrapAdd(toBal, tx.amount));
          applied := (applied + 1) % U32_RANGE;
        }
      }
      assert txs[..|txs|] == txs;
    }
  }

  /** `hash_transactions`: the digest fed transaction by transaction is that of the whole list. */
  method HashTransactions(txs: seq<Tx>) returns (d: Digest)
    ensures d == TxList(txs)
  {
    var fed: seq<Tx> := [];
    for i := 0 to |txs|
      invariant fed == txs[..i]
    {
      fed := fed + [txs[i]];
    }
    d := TxList(fed);
  }

  /** Blocks applied in order. */
  function ApplyBlocks(s: State, blocks: seq<seq<Tx>>): State {
    if blocks == [] then s
    else ApplyBlock(ApplyBlocks(s, blocks[..|blocks| - 1]), blocks[|blocks| - 1])
  }

  lemma {:induction false} ApplyBlockConcat(s: State, a: seq<Tx>, b: seq<Tx>)
    ensures ApplyBlock(s, a + b) == ApplyBlock(ApplyBlock(s, a), b)
    decreases b
  {
    if b == [] {
      assert a + b == a;
    } else {
      ApplyBlockConcat(s, a, b[..|b| - 1]);
      assert (a + b)[..|a + b| - 1] == a + b[..|b| - 1];
    }
  }

  // ----- supply conservation -----

  /** Sum of the balances of accounts 0..n-1. */
  function Supply(s: State, n: nat): nat
    requires n <= U32_RANGE
  {
    if n == 0 then 0 else Supply(s, n - 1) + Balance(s, n - 1)
  }

  predicate AccountsBelow(txs: seq<Tx>, n: nat) {
    forall i | 0 <= i < |txs| :: txs[i].from < n && txs[i].to < n
  }

  lemma {:induction false} SupplyUpdate(s: State, account: u32, amount: u64, n: nat)
    requires n <= U32_RANGE
    ensures Supply(SetBalance(s, account, amount), n)
         == Supply(s, n) + if account < n then amount - Balance(s, account) else 0
  {
    if n > 0 {
      SupplyUpdate(s, account, amount, n - 1);
    }
  }

  lemma {:induction false} BalanceWithinSupply(s: State, account: u32, n: nat)
    requires account < n <= U32_RANGE
    ensures Balance(s, account) <= Supply(s, n)
  {
    if account < n - 1 {
      BalanceWithinSupply(s, account, n - 1);
    }
  }

  /** No credit of the block wraps around. */
  predicate NoOverflow(s: State, txs: seq<Tx>) {
    txs == []
    || (var t := ApplyBlock(s, txs[..|txs| - 1]);
        var tx := txs[|txs| - 1];
        NoOverflow(s, txs[..|txs| - 1])
        && (Applies(t, tx) ==> Balance(t, tx.to) + tx.amount < U64_RANGE))
  }

  /** How many credits of the block wrap around. */
  function Wraps(s: State, txs: seq<Tx>): nat {
    if txs == [] then 0
    else
      var t, tx := ApplyBlock(s, txs[..|txs| - 1]), txs[|txs| - 1];
      Wraps(s, txs[..|txs| - 1]) + if Applies(t, tx) && Balance(t, tx.to) + tx.amount >= U64_RANGE then 1 else 0
  }

  lemma TxSupplyExact(s: State, tx: Tx, n: nat)
    requires tx.from < n && tx.to < n <= U32_RANGE
    ensures var wraps := if Applies(s, tx) && Balance(s, tx.to) + tx.amount >= U64_RANGE then 1 else 0;
            Supply(ApplyTx(s, tx), n) + U64_RANGE * wraps == Supply(s, n)
  {
    if Applies(s, tx) {
      var debited := SetBalance(s, tx.from, Balance(s, tx.from) - tx.amount);
      SupplyUpdate(s, tx.from, Balance(s, tx.from) - tx.amount, n);
      SupplyUpdate(debited, tx.to, WrapAdd(Balance(s, tx.to), tx.amount), n);
    }
  }

  lemma {:induction false} BlockSupplyExact(s: State, txs: seq<Tx>, n: nat)
    requires n <= U32_RANGE && AccountsBelow(txs, n)
    ensures Supply(ApplyBlock(s, txs), n) + U64_RANGE * Wraps(s, txs) == Supply(s, n)
    ensures NoOverflow(s, txs) <==> Wraps(s, txs) == 0
  {
    if txs != [] {
      BlockSupplyExact(s, txs[..|txs| - 1], n);
      TxSupplyExact(ApplyBlock(s, txs[..|txs| - 1]), txs[|txs| - 1], n);
    }
  }

  /** For any balances whatever: a block keeps the supply exactly when none of its credits
      overflows, and otherwise it only ever loses money. */
  lemma SupplyConservedIff(s: State, txs: seq<Tx>, n: nat)
    requires n <= U32_RANGE && AccountsBelow(txs, n)
    ensures Supply(ApplyBlock(s, txs), n) == Supply(s, n) <==> NoOverflow(s, txs)
    ensures Supply(ApplyBlock(s, txs), n) <= Supply(s, n)
  {
    BlockSupplyExact(s, txs, n);
  }

  lemma TxConservesSupply(s: State, tx: Tx, n: nat)
    requires tx.from < n && tx.to < n <= U32_RANGE && Supply(s, n) < U64_RANGE
    ensures Supply(ApplyTx(s, tx), n) == Supply(s, n)
    ensures Applies(s, tx) ==> Balance(s, tx.to) + tx.amount < U64_RANGE
  {
    if Applies(s, tx) {
      var debited := SetBalance(s, tx.from, Balance(s, tx.from) - tx.amount);
      SupplyUpdate(s, tx.from, Balance(s, tx.from) - tx.amount, n);
      BalanceWithinSupply(debited, tx.to, n);
      SupplyUpdate(debited, tx.to, WrapAdd(Balance(s, tx.to), tx.amount), n);
    }
  }

  lemma {:induction false} BlockConservesSupply(s: State, txs: seq<Tx>, n: nat)
    requires n <= U32_RANGE && AccountsBelow(txs, n) && Supply(s, n) < U64_RANGE
    ensures Supply(ApplyBlock(s, txs), n) == Supply(s, n)
    ensures NoOverflow(s, txs)
  {
    if txs != [] {
      BlockConservesSupply(s, txs[..|txs| - 1], n);
      TxConservesSupply(ApplyBlock(s, txs[..|txs| - 1]), txs[|txs| - 1], n);
    }
  }

  /** Supply conservation over any number of blocks: if the total fits in a u64 it never
      changes, and no credit of any block overflows. */
  lemma {:induction false} SupplyConserved(s: State, blocks: seq<seq<Tx>>, n: nat)
    requires n <= U32_RANGE && Supply(s, n) < U64_RANGE
    requires forall i | 0 <= i < |blocks| :: AccountsBelow(blocks[i], n)
    ensures Supply(ApplyBlocks(s, blocks), n) == Supply(s, n)
    ensures forall k | 0 <= k < |blocks| :: NoOverflow(ApplyBlocks(s, blocks[..k]), blocks[k])
  {
    if blocks != [] {
      var m := |blocks| - 1;
      SupplyConserved(s, blocks[..m], n);
      BlockConservesSupply(ApplyBlocks(s, blocks[..m]), blocks[m], n);
      forall k | 0 <= k < |blocks| ensures NoOverflow(ApplyBlocks(s, blocks[..k]), blocks[k]) {
        if k < m {
          assert blocks[..m][..k] == blocks[..k] && blocks[..m][k] == blocks[k];
        }
      }
    }
  }
}
