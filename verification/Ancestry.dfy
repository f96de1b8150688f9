/** Local block tree, ancestry walk and the SafeNode rule (node/consensus-node/src/state.rs). */
module Ancestry {
  import opened Messages

  /** A tree maps each hash to the node it is the hash of. */
  type Tree = t: map<Hash, Node> | forall h | h in t :: h == NodeHash(t[h]) witness map[]

  const MAX_STEPS: nat := 100_000

  /** `target` is the k-th ancestor of `cur` along nodes known to the tree. */
  predicate Reaches(tree: Tree, cur: Hash, target: Hash, k: nat) {
    if k == 0 then cur == target
    else cur in tree && Reaches(tree, tree[cur].parent, target, k - 1)
  }

  /** `target` is `cur` or at most `bound` known links above it. */
  predicate Within(tree: Tree, cur: Hash, target: Hash, bound: nat)
    decreases cur
  {
    cur == target || (bound > 0 && cur in tree && Within(tree, tree[cur].parent, target, bound - 1))
  }

  predicate ExtendsFrom(node: Node, target: Hash, tree: Tree) {
    NodeHash(node) == target || Within(tree, node.parent, target, MAX_STEPS)
  }

  /** `extends_from`: the bounded walk up the parent links. */
  method CheckExtends(node: Node, target: Hash, tree: Tree) returns (r: bool)
    ensures r == ExtendsFrom(node, target, tree)
  {
    if NodeHash(node) == target {
      return true;
    }
    var cur := node.parent;
    var steps := 0;
    while true
      invariant steps <= MAX_STEPS
      invariant Within(tree, node.parent, target, MAX_STEPS) == Within(tree, cur, target, MAX_STEPS - steps)
      decreases MAX_STEPS - steps
    {
      if cur == target {
        return true;
      }
      if cur == Genesis {
        return false;
      }
      if cur !in tree {
        return false;
      }
      cur := tree[cur].parent;
      steps := steps + 1;
      if steps > MAX_STEPS {
        return false;
      }
    }
    assert false;
  }

  lemma {:induction false} WithinReaches(tree: Tree, cur: Hash, target: Hash, bound: nat) returns (k: nat)
    requires Within(tree, cur, target, bound)
    ensures k <= bound && Reaches(tree, cur, target, k)
    decreases cur
  {
    if cur == target {
      k := 0;
    } else {
      k := WithinReaches(tree, tree[cur].parent, target, bound - 1);
      k := k + 1;
    }
  }

  lemma {:induction false} ReachesWithin(tree: Tree, cur: Hash, target: Hash, k: nat, bound: nat)
    requires k <= bound && Reaches(tree, cur, target, k)
    ensures Within(tree, cur, target, bound)
    decreases cur
  {
    if k > 0 {
      ReachesWithin(tree, tree[cur].parent, target, k - 1, bound - 1);
    }
  }

  /** The walk answers yes exactly for the node itself and for ancestors whose links the tree
      knows, up to 100001 links above it. */
  lemma ExtendsFromIff(node: Node, target: Hash, tree: Tree)
    ensures ExtendsFrom(node, target, tree)
       <==> NodeHash(node) == target || exists k: nat :: k <= 100_000 && Reaches(tree, node.parent, target, k)
  {
    WithinIff(tree, node.parent, target, MAX_STEPS);
  }

  lemma {:induction false} WithinIff(tree: Tree, cur: Hash, target: Hash, bound: nat)
    ensures Within(tree, cur, target, bound) <==> exists k: nat :: k <= bound && Reaches(tree, cur, target, k)
  {
    if Within(tree, cur, target, bound) {
      var k := WithinReaches(tree, cur, target, bound);
      assert exists k: nat :: k <= bound && Reaches(tree, cur, target, k);
    } else if k: nat :| k <= bound && Reaches(tree, cur, target, k) {
      ReachesWithin(tree, cur, target, k, bound);
    }
  }

  lemma {:induction false} WithinSound(tree: Tree, cur: Hash, target: Hash, bound: nat)
    requires Within(tree, cur, target, bound)
    ensures Extends(cur, target)
    decreases cur
  {
    if cur != target {
      WithinSound(tree, tree[cur].parent, target, bound - 1);
    }
  }

  /** A yes is never wrong. */
  lemma ExtendsFromSound(node: Node, target: Hash, tree: Tree)
    requires ExtendsFrom(node, target, tree)
    ensures Extends(NodeHash(node), target)
  {
    if NodeHash(node) != target {
      WithinSound(tree, node.parent, target, MAX_STEPS);
    }
  }

  predicate Grows(tree: Tree, tree': Tree) {
    forall h | h in tree :: h in tree'
  }

  lemma {:induction false} WithinMonotone(tree: Tree, tree': Tree, cur: Hash, target: Hash, bound: nat)
    requires Grows(tree, tree') && Within(tree, cur, target, bound)
    ensures Within(tree', cur, target, bound)
    decreases cur
  {
    if cur != target {
      WithinMonotone(tree, tree', tree[cur].parent, target, bound - 1);
    }
  }

  /** A yes stays a yes as the tree grows. */
  lemma ExtendsFromMonotone(node: Node, target: Hash, tree: Tree, tree': Tree)
    requires Grows(tree, tree') && ExtendsFrom(node, target, tree)
    ensures ExtendsFrom(node, target, tree')
  {
    if NodeHash(node) != target {
      WithinMonotone(tree, tree', node.parent, target, MAX_STEPS);
    }
  }

  /** SafeNode: no lock, or the safety rule, or the liveness rule. */
  predicate SafeNode(node: Node, qc: Option<QC>, locked: Option<QC>, tree: Tree) {
    || locked.None?
    || ExtendsFrom(node, locked.value.node, tree)
    || (qc.Some? && qc.value.view > locked.value.view)
  }
}
