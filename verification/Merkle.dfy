/** Merkle commitment to the ledger state (compute_state_root in crates/ledger-core/src/lib.rs). */
module Merkle {
  import opened Ledger

  predicate PowerOfTwo(n: nat) {
    n == 1 || (n > 1 && n % 2 == 0 && PowerOfTwo(n / 2))
  }

  /** Smallest doubling of p that reaches x. */
  function DoubleUpTo(x: nat, p: nat): (r: nat)
    requires p >= 1
    ensures r >= x && r >= p && (r > p ==> r < 2 * x)
    ensures PowerOfTwo(p) ==> PowerOfTwo(r)
    decreases x - p
  {
    if p >= x then p else assert 2 * p / 2 == p; DoubleUpTo(x, 2 * p)
  }

  /** `balances.len().next_power_of_two().max(1)`. */
  function Width(s: State): (n: nat)
    ensures PowerOfTwo(n) && |s.balances| <= n && (n > 1 ==> n < 2 * |s.balances|)
  {
    DoubleUpTo(|s.balances|, 1)
  }

  /** Powers of two leave a gap up to the next doubling. */
  lemma {:induction false} PowerOfTwoGap(n: nat, m: nat)
    requires PowerOfTwo(n) && PowerOfTwo(m) && m <= n < 2 * m
    ensures n == m
    decreases n
  {
    if m > 1 {
      PowerOfTwoGap(n / 2, m / 2);
    }
  }

  /** A wider layer truncates to zero leaves. */
  lemma {:induction false} WideTruncates(n: nat)
    requires PowerOfTwo(n) && n >= U32_RANGE
    ensures n % U32_RANGE == 0
    decreases n
  {
    if n > U32_RANGE {
      if n < 2 * U32_RANGE {
        Doublings();
        PowerOfTwoGap(n, U32_RANGE);
      } else {
        WideTruncates(n / 2);
        var q := n / 2 / U32_RANGE;
        assert n == 2 * q * U32_RANGE;
      }
    }
  }

  function LeafAt(s: State, i: nat): Digest
    requires i < U32_RANGE
  {
    Leaf(i, Balance(s, i))
  }

  function Leaves(s: State, n: nat): (leaves: seq<Digest>)
    requires n <= U32_RANGE
    ensures |leaves| == n && forall i | 0 <= i < n :: leaves[i] == LeafAt(s, i)
  {
    seq(n, i requires 0 <= i < n => LeafAt(s, i))
  }

  /** Reference definition: split the leaves in halves. */
  function Tree(leaves: seq<Digest>): Digest
    requires PowerOfTwo(|leaves|)
  {
    if |leaves| == 1 then leaves[0]
    else var m := |leaves| / 2; Inner(Tree(leaves[..m]), Tree(leaves[m..]))
  }

  /** One pass of the source's pairing loop. */
  function Level(layer: seq<Digest>): (next: seq<Digest>)
    requires |layer| % 2 == 0
    ensures |next| == |layer| / 2
    ensures forall i | 0 <= i < |next| :: next[i] == Inner(layer[2 * i], layer[2 * i + 1])
  {
    seq(|layer| / 2, i requires 0 <= i < |layer| / 2 => Inner(layer[2 * i], layer[2 * i + 1]))
  }

  lemma TreeSplit(leaves: seq<Digest>) returns (m: nat)
    requires PowerOfTwo(|leaves|) && |leaves| > 1
    ensures |leaves| == 2 * m && m >= 1 && m < |leaves| && PowerOfTwo(m)
    ensures Tree(leaves) == Inner(Tree(leaves[..m]), Tree(leaves[m..]))
  {
    m := |leaves| / 2;
  }

  lemma LevelHalves(layer: seq<Digest>, k: nat)
    requires |layer| == 4 * k
    ensures Level(layer)[..k] == Level(layer[..2 * k]) && Level(layer)[k..] == Level(layer[2 * k..])
  {
  }

  /** Pairing neighbours does not change the tree. */
  lemma {:induction false} LevelKeepsTree(layer: seq<Digest>)
    requires PowerOfTwo(|layer|) && |layer| > 1
    ensures Tree(Level(layer)) == Tree(layer)
    decreases |layer|
  {
    var m := TreeSplit(layer);
    if m > 1 {
      LevelKeepsTree(layer[..m]);
      LevelKeepsTree(layer[m..]);
      var k := TreeSplit(Level(layer));
      LevelHalves(layer, k);
    } else {
      assert layer[..m][0] == layer[0] && layer[m..][0] == layer[1];
    }
  }

  function Root(s: State): Digest
    requires |s.balances| <= 0x8000_0000
  {
    WidthBound(s);
    Tree(Leaves(s, Width(s)))
  }

  lemma WidthBound(s: State)
    ensures Width(s) < U32_RANGE <==> |s.balances| <= 0x8000_0000
    ensures Width(s) >= U32_RANGE ==> Width(s) % U32_RANGE == 0
  {
    if Width(s) >= U32_RANGE {
      WideTruncates(Width(s));
    } else if Width(s) >= 0x8000_0000 {
      Doublings();
      PowerOfTwoGap(Width(s), 0x8000_0000);
    }
  }

  lemma Doubled(p: nat)
    requires PowerOfTwo(p)
    ensures PowerOfTwo(2 * p)
  {
    assert 2 * p / 2 == p && 2 * p % 2 == 0;
  }

  lemma DoubledTwice(p: nat)
    requires PowerOfTwo(p)
    ensures PowerOfTwo(4 * p)
  {
    Doubled(p);
    Doubled(2 * p);
  }

  lemma DoubledFourTimes(p: nat)
    requires PowerOfTwo(p)
    ensures PowerOfTwo(0x10 * p)
  {
    DoubledTwice(p);
    DoubledTwice(4 * p);
  }

  lemma DoubledEightTimes(p: nat)
    requires PowerOfTwo(p)
    ensures PowerOfTwo(0x100 * p)
  {
    DoubledFourTimes(p);
    DoubledFourTimes(0x10 * p);
  }

  lemma Doublings()
    ensures PowerOfTwo(0x8000_0000) && PowerOfTwo(0x1_0000_0000)
  {
    DoubledEightTimes(0x80);
    DoubledEightTimes(0x8000);
    DoubledEightTimes(0x80_0000);
    Doubled(0x8000_0000);
  }

  datatype RootResult = Computed(digest: Digest) | Panic

  /** `compute_state_root`: bottom-up over layers. The leaf count is cast to u32, so with more
      than 2^31 entries the layer stays empty and indexing it panics. */
  method ComputeStateRoot(s: State) returns (r: RootResult)
    ensures |s.balances| <= 0x8000_0000 ==> r == Computed(Root(s))
    ensures |s.balances| > 0x8000_0000 ==> r == Panic
  {
    var n := Width(s);
    WidthBound(s);
    var layer: seq<Digest> := [];
    for i := 0 to n % U32_RANGE
      invariant layer == Leaves(s, i)
    {
      layer := layer + [Leaf(i, Balance(s, i))];
    }
    if layer == [] {
      return Panic;
    }
    while |layer| > 1
      invariant PowerOfTwo(|layer|) && n < U32_RANGE && Tree(layer) == Root(s)
      decreases |layer|
    {
      LevelKeepsTree(layer);
      var next: seq<Digest> := [];
      for i := 0 to |layer| / 2
        invariant next == Level(layer)[..i]
      {
        next := next + [Inner(layer[2 * i], layer[2 * i + 1])];
      }
      assert next == Level(layer);
      layer := next;
    }
    r := Computed(layer[0]);
  }

  /** A tree determines its leaves, even across widths. */
  lemma {:induction false} TreeInjective(a: seq<Digest>, b: seq<Digest>)
    requires PowerOfTwo(|a|) && PowerOfTwo(|b|)
    requires forall i | 0 <= i < |a| :: a[i].Leaf?
    requires forall i | 0 <= i < |b| :: b[i].Leaf?
    requires Tree(a) == Tree(b)
    ensures a == b
    decreases |a|
  {
    if |a| > 1 && |b| > 1 {
      var m := TreeSplit(a);
      var k := TreeSplit(b);
      TreeInjective(a[..m], b[..k]);
      TreeInjective(a[m..], b[k..]);
      assert a == a[..m] + a[m..] && b == b[..k] + b[k..];
    }
  }

  /** Root equality, exactly: same padded width and same balance for every account below it. */
  lemma RootEqualIff(s: State, t: State)
    requires |s.balances| <= 0x8000_0000 && |t.balances| <= 0x8000_0000
    ensures Root(s) == Root(t)
       <==> Width(s) == Width(t) && forall a: u32 | a < Width(s) :: Balance(s, a) == Balance(t, a)
  {
    WidthBound(s);
    WidthBound(t);
    if Root(s) == Root(t) {
      var a, b := Leaves(s, Width(s)), Leaves(t, Width(t));
      TreeInjective(a, b);
      forall i: u32 | i < Width(s) ensures Balance(s, i) == Balance(t, i) {
        assert a[i] == b[i];
      }
    }
    if Width(s) == Width(t) && forall a: u32 | a < Width(s) :: Balance(s, a) == Balance(t, a) {
      assert Leaves(s, Width(s)) == Leaves(t, Width(t));
    }
  }

  // ----- equal roots stay equal under the same block -----

  /** Every key is below the padded width, as when account ids are 0..k-1. */
  predicate Dense(s: State) {
    |s.balances| <= 0x8000_0000 && forall a: u32 | a in s.balances :: a < Width(s)
  }

  lemma {:induction false} RangeSize(keys: set<u32>, n: nat)
    requires n <= U32_RANGE && forall k | k in keys :: k < n
    ensures |keys| <= n
  {
    if n > 0 {
      RangeSize(keys - {n - 1}, n - 1);
      assert keys <= keys - {n - 1} + {n - 1};
      if n - 1 in keys {
        assert keys == keys - {n - 1} + {n - 1};
      } else {
        assert keys == keys - {n - 1};
      }
    }
  }

  lemma {:induction false} DoublingStable(x: nat, y: nat, p: nat)
    requires p >= 1 && x <= y <= DoubleUpTo(x, p)
    ensures DoubleUpTo(y, p) == DoubleUpTo(x, p)
    decreases x - p
  {
    if p < x {
      DoublingStable(x, y, 2 * p);
    }
  }

  lemma SetKeepsWidth(s: State, a: u32, v: u64)
    requires Dense(s) && a < Width(s)
    ensures Width(SetBalance(s, a, v)) == Width(s) && Dense(SetBalance(s, a, v))
  {
    var t := SetBalance(s, a, v);
    WidthBound(s);
    assert t.balances.Keys == s.balances.Keys + {a};
    RangeSize(t.balances.Keys, Width(s));
    assert |s.balances.Keys| <= |t.balances.Keys|;
    DoublingStable(|s.balances|, |t.balances|, 1);
    WidthBound(t);
  }

  lemma {:induction false} BlockKeepsWidth(s: State, txs: seq<Tx>)
    requires Dense(s) && AccountsBelow(txs, Width(s))
    ensures Width(ApplyBlock(s, txs)) == Width(s) && Dense(ApplyBlock(s, txs))
  {
    if txs != [] {
      var front, tx := txs[..|txs| - 1], txs[|txs| - 1];
      BlockKeepsWidth(s, front);
      var t := ApplyBlock(s, front);
      if Applies(t, tx) {
        SetKeepsWidth(t, tx.from, Balance(t, tx.from) - tx.amount);
        SetKeepsWidth(SetBalance(t, tx.from, Balance(t, tx.from) - tx.amount),
                      tx.to, WrapAdd(Balance(t, tx.to), tx.amount));
      }
    }
  }

  ghost predicate SameBalances(s: State, t: State) {
    forall a: u32 :: Balance(s, a) == Balance(t, a)
  }

  lemma TxKeepsSameBalances(s: State, t: State, tx: Tx)
    requires SameBalances(s, t)
    ensures SameBalances(ApplyTx(s, tx), ApplyTx(t, tx))
  {
    forall a: u32 ensures Balance(ApplyTx(s, tx), a) == Balance(ApplyTx(t, tx), a) {
      assert Balance(s, a) == Balance(t, a);
    }
  }

  lemma {:induction false} BlockKeepsSameBalances(s: State, t: State, txs: seq<Tx>)
    requires SameBalances(s, t)
    ensures SameBalances(ApplyBlock(s, txs), ApplyBlock(t, txs))
  {
    if txs != [] {
      var front := txs[..|txs| - 1];
      BlockKeepsSameBalances(s, t, front);
      TxKeepsSameBalances(ApplyBlock(s, front), ApplyBlock(t, front), txs[|txs| - 1]);
    }
  }

  /** Two dense states with one root have one root after any block over those accounts. */
  lemma RootDeterminesNextRoot(s: State, t: State, txs: seq<Tx>)
    requires Dense(s) && Dense(t) && Root(s) == Root(t) && AccountsBelow(txs, Width(s))
    ensures Dense(ApplyBlock(s, txs)) && Dense(ApplyBlock(t, txs))
    ensures Root(ApplyBlock(s, txs)) == Root(ApplyBlock(t, txs))
  {
    RootEqualIff(s, t);
    assert SameBalances(s, t);
    BlockKeepsSameBalances(s, t, txs);
    BlockKeepsWidth(s, txs);
    BlockKeepsWidth(t, txs);
    RootEqualIff(ApplyBlock(s, txs), ApplyBlock(t, txs));
  }

  /** Without density the root misses accounts: one entry at id 5 or at id 7 gives the same root. */
  lemma SparseStatesShareRoot()
    ensures Root(State(map[5 := 1])) == Root(State(map[7 := 2]))
    ensures !Dense(State(map[5 := 1]))
  {
    RootEqualIff(State(map[5 := 1]), State(map[7 := 2]));
  }

  // ----- every account has its place -----

  /** From the root of a tree of `width` leaves down to leaf i: left in the lower half, right in the upper. */
  function Descend(d: Digest, width: nat, i: nat): Digest
    decreases width
  {
    if width <= 1 || !d.Inner? then d
    else if i < width / 2 then Descend(d.left, width / 2, i)
    else Descend(d.right, width / 2, i - width / 2)
  }

  lemma {:induction false} DescendTree(leaves: seq<Digest>, i: nat)
    requires PowerOfTwo(|leaves|) && i < |leaves|
    ensures Descend(Tree(leaves), |leaves|, i) == leaves[i]
    decreases |leaves|
  {
    if |leaves| > 1 {
      var m := TreeSplit(leaves);
      if i < m { DescendTree(leaves[..m], i); } else { DescendTree(leaves[m..], i - m); }
    }
  }

  /** Following the bits of an account id from the state root leads to the hash of that id and its balance. */
  lemma DescendRoot(s: State, i: u32)
    requires |s.balances| <= 0x8000_0000 && i < Width(s)
    ensures Descend(Root(s), Width(s), i) == Leaf(i, Balance(s, i))
  {
    WidthBound(s);
    DescendTree(Leaves(s, Width(s)), i);
  }
}
