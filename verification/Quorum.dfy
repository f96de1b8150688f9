/** Replica set, quorum size and quorum intersection
    (node/consensus-node/src/state.rs, ReplicaState::new). */
module Quorums {
  /** `n` replicas with ids 0..n-1, of which `faulty` may behave arbitrarily. */
  datatype Config = Config(n: nat, faulty: set<nat>)

  function MaxFaulty(n: nat): nat {
    if n == 0 then 0 else (n - 1) / 3
  }

  function Quorum(n: nat): nat {
    n - MaxFaulty(n)
  }

  function Ids(n: nat): (ids: set<nat>)
    ensures forall i: nat :: i in ids <==> i < n
    ensures |ids| == n
  {
    if n == 0 then {} else Ids(n - 1) + {n - 1}
  }

  predicate ValidConfig(c: Config) {
    c.n >= 1 && c.faulty <= Ids(c.n) && |c.faulty| <= MaxFaulty(c.n)
  }

  predicate Correct(c: Config, i: nat) {
    i < c.n && i !in c.faulty
  }

  lemma SubsetSize<T>(a: set<T>, b: set<T>)
    requires a <= b
    ensures |a| <= |b|
  {
    assert b == a + (b - a);
  }

  /** Any two quorums share a correct replica. */
  lemma QuorumsIntersect(c: Config, a: set<nat>, b: set<nat>) returns (r: nat)
    requires ValidConfig(c) && a <= Ids(c.n) && b <= Ids(c.n)
    requires |a| >= Quorum(c.n) && |b| >= Quorum(c.n)
    ensures r in a && r in b && Correct(c, r)
  {
    SubsetSize(a + b, Ids(c.n));
    assert |a + b| + |a * b| == |a| + |b|;
    if a * b <= c.faulty {
      SubsetSize(a * b, c.faulty);
      assert false;
    }
    r :| r in a * b && r !in c.faulty;
  }

  // ----- the fault bound is the right one -----

  /** `MaxFaulty(n)` is the largest f with 3f < n. */
  lemma FaultBound(n: nat)
    requires n >= 1
    ensures 3 * MaxFaulty(n) < n <= 3 * MaxFaulty(n) + 3
    ensures forall f: nat :: 3 * f < n <==> f <= MaxFaulty(n)
    ensures Quorum(n) + MaxFaulty(n) == n
  {
  }

  /** No faulty replica is needed for a quorum. */
  lemma CorrectFormQuorum(c: Config)
    requires ValidConfig(c)
    ensures |Ids(c.n) - c.faulty| >= Quorum(c.n)
    ensures forall i :: i in Ids(c.n) - c.faulty ==> Correct(c, i)
  {
    assert Ids(c.n) == (Ids(c.n) - c.faulty) + c.faulty;
  }

  lemma RangeSize(lo: nat, hi: nat)
    requires lo <= hi
    ensures |Ids(hi) - Ids(lo)| == hi - lo
  {
    assert Ids(hi) == (Ids(hi) - Ids(lo)) + Ids(lo);
  }

  /** One more fault is too many: with f + 1 faulty replicas two sets of n - (f + 1) replicas, all
      that can be waited for, may have no correct one in common. */
  lemma OneFaultMore(n: nat) returns (faulty: set<nat>, a: set<nat>, b: set<nat>)
    requires n >= 1
    ensures faulty <= Ids(n) && |faulty| == MaxFaulty(n) + 1 && a <= Ids(n) && b <= Ids(n)
    ensures |a| == |b| == n - (MaxFaulty(n) + 1) && a * b <= faulty
  {
    var g := MaxFaulty(n) + 1;
    faulty, a, b := Ids(g), Ids(n - g), Ids(n - g);
    if n - g > g {
      var top := Ids(n) - Ids(2 * g);
      RangeSize(2 * g, n);
      b := faulty + top;
      assert faulty * top == {};
    }
  }
}
