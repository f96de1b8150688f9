/** The backfill pass does not depend on the iteration order of the decided set
    (node/consensus-node/src/consensus/execute.rs, retry_pending_execute). */
module ExecutionOrder {
  import opened Messages
  import opened Ancestry
  import opened Execution

  /** Every node of the branch of `h` above height `last` is in the tree. */
  predicate Linked(tree: Tree, last: int, h: Hash)
    decreases h
  {
    && h.NodeHash?
    && (h.node.height <= last || (h in tree && (h.node.parent == Genesis || Linked(tree, last, h.node.parent))))
  }

  /** The ancestor of `h` just above height `last`. */
  function FirstAbove(last: int, h: Hash): Hash
    requires h.NodeHash?
    decreases h
  {
    if h.node.parent == Genesis || h.node.parent.node.height <= last then h else FirstAbove(last, h.node.parent)
  }

  lemma {:induction false} FirstAboveProps(last: int, h: Hash)
    requires HeightConsistent(h) && h.NodeHash? && h.node.height > last >= -1
    ensures var c := FirstAbove(last, h); Extends(h, c) && c.NodeHash? && c.node.height == last + 1
    decreases h
  {
    if h.node.parent != Genesis && h.node.parent.node.height > last {
      FirstAboveProps(last, h.node.parent);
    }
  }

  /** A linked branch gives a chain that starts at `last + 1`; any other chain is empty or starts higher. */
  lemma {:induction false} ChainShape(tree: Tree, last: int, h: Hash)
    requires HeightConsistent(h) && h.NodeHash? && last >= -1
    ensures h.node.height <= last ==> Chain(tree, last, h) == []
    ensures h.node.height > last && Linked(tree, last, h) ==>
              && |Chain(tree, last, h)| > 0 && Chain(tree, last, h)[0] == FirstAbove(last, h)
    ensures h.node.height > last && !Linked(tree, last, h) && |Chain(tree, last, h)| > 0 ==>
              tree[Chain(tree, last, h)[0]].height != last + 1
    decreases h
  {
    if h in tree && h.node.height > last && h.node.parent != Genesis {
      ChainShape(tree, last, h.node.parent);
    }
  }

  /** After the first node runs, the rest of the chain is the chain from the new height. */
  lemma {:induction false} ChainTail(tree: Tree, last: int, h: Hash)
    requires HeightConsistent(h) && h.NodeHash? && last >= -1 && h.node.height > last && Linked(tree, last, h)
    ensures |Chain(tree, last, h)| > 0 && Chain(tree, last, h)[1..] == Chain(tree, last + 1, h)
    ensures Linked(tree, last + 1, h)
    decreases h
  {
    ChainShape(tree, last, h);
    if h.node.parent != Genesis {
      var p := h.node.parent;
      ChainShape(tree, last, p);
      ChainShape(tree, last + 1, p);
      if p.node.height > last {
        ChainTail(tree, last, p);
        assert (Chain(tree, last, p) + [h])[1..] == Chain(tree, last, p)[1..] + [h];
      }
    }
  }

  // ----- one node at a time -----

  /** Running a node: its cached state, if any, becomes the live one and leaves the cache. Unless its
      claimed pre-root breaks the chain, which aborts, its claimed post-root becomes the chained one
      and leaves the cache, and the node is the last executed. */
  lemma RunLaw(tree: Tree, ex: Exec, h: Hash)
    requires h in tree
    ensures var ex' := Apply(tree, ex, h);
            var breaks := h in ex.preRoot && tree[h].height != 0 && ex.preRoot[h] != ex.chained;
            var claims := !breaks && h in ex.preRoot && h in ex.postRoot;
            && ex'.live == (if h in ex.postState then ex.postState[h] else ex.live)
            && ex'.postState == ex.postState - {h}
            && ex'.chained == (if claims then ex.postRoot[h] else ex.chained)
            && ex'.postRoot == (if claims then ex.postRoot - {h} else ex.postRoot)
            && ex'.panicked == (ex.panicked || breaks)
            && ex'.last == (if breaks then ex.last else tree[h].height)
            && ex'.executed == (if breaks then ex.executed else ex.executed + [h])
            && ex'.preRoot == ex.preRoot && ex'.validation == ex.validation
            && ex'.pending == ex.pending && ex'.requests == ex.requests
  {
    if h !in ex.postState { assert ex.postState - {h} == ex.postState; }
  }

  /** `TryExecute` unfolded: run the next node of a linked branch and continue, or stall on it. */
  lemma Unfold(env: Env, tree: Tree, ex: Exec, h: Hash)
    requires HeightConsistent(h) && h.NodeHash? && ex.last >= -1 && !ex.panicked
    ensures h.node.height <= ex.last || !Linked(tree, ex.last, h) ==> TryExecute(env, tree, ex, h) == ex
    ensures h.node.height > ex.last && Linked(tree, ex.last, h) ==>
              var c := FirstAbove(ex.last, h);
              && c in tree && tree[c].height == ex.last + 1
              && TryExecute(env, tree, ex, h)
                 == if Ready(tree, ex, c) then TryExecute(env, tree, Apply(tree, ex, c), h) else Stall(env, tree, ex, c)
  {
    ChainShape(tree, ex.last, h);
    var chain := Chain(tree, ex.last, h);
    if h.node.height > ex.last && Linked(tree, ex.last, h) {
      ChainTail(tree, ex.last, h);
      FirstAboveProps(ex.last, h);
      var c := FirstAbove(ex.last, h);
      if Ready(tree, ex, c) {
        var ex' := Apply(tree, ex, c);
        if ex'.panicked {
          PanickedStops(env, tree, ex', h);
          assert RunChain(env, tree, ex', chain[1..]) == ex';
        } else {
          assert Chain(tree, ex'.last, h) == chain[1..];
        }
      }
    }
  }

  lemma StallFacts(env: Env, tree: Tree, ex: Exec, c: Hash)
    requires c in tree
    ensures var ex' := Stall(env, tree, ex, c);
            && ex'.last == ex.last && ex'.validation == ex.validation
            && (ex'.panicked || Stall(env, tree, ex', c) == ex')
  {
  }

  lemma PanickedStops(env: Env, tree: Tree, ex: Exec, h: Hash)
    requires ex.panicked
    ensures TryExecute(env, tree, ex, h) == ex
  {
  }

  /** Execution goes up to the decided node and no further. */
  lemma {:induction false} LastBounds(env: Env, tree: Tree, ex: Exec, h: Hash)
    requires HeightConsistent(h) && h.NodeHash? && ex.last >= -1
    ensures var ex' := TryExecute(env, tree, ex, h);
            ex.last <= ex'.last && (ex'.last == ex.last || ex'.last <= h.node.height)
    decreases h.node.height - ex.last
  {
    if !ex.panicked {
      Unfold(env, tree, ex, h);
      if h.node.height > ex.last && Linked(tree, ex.last, h) {
        var c := FirstAbove(ex.last, h);
        if Ready(tree, ex, c) {
          var ex' := Apply(tree, ex, c);
          if ex'.panicked { PanickedStops(env, tree, ex', h); } else { LastBounds(env, tree, ex', h); }
        } else {
          StallFacts(env, tree, ex, c);
        }
      }
    }
  }

  // ----- two decided nodes on one branch -----

  lemma {:induction false} LinkedUp(tree: Tree, last: int, last': int, h: Hash)
    requires Linked(tree, last, h) && last <= last'
    ensures Linked(tree, last', h)
    decreases h
  {
    if h.node.height > last && h.node.parent != Genesis {
      LinkedUp(tree, last, last', h.node.parent);
    }
  }

  /** What is linked down to a linked ancestor is linked. */
  lemma {:induction false} LinkedThrough(tree: Tree, last: int, last': int, b: Hash, a: Hash)
    requires HeightConsistent(b) && Extends(b, a) && a.NodeHash? && Linked(tree, last, a)
    requires Linked(tree, last', b) && last' <= a.node.height && last <= last'
    ensures Linked(tree, last, b)
    decreases b
  {
    AncestorHeight(b, a);
    if b != a {
      AncestorHeight(b.node.parent, a);
      LinkedThrough(tree, last, last', b.node.parent, a);
    }
  }

  lemma {:induction false} LinkedBelow(tree: Tree, last: int, b: Hash, a: Hash)
    requires HeightConsistent(b) && Extends(b, a) && a.NodeHash? && Linked(tree, last, b) && a.node.height > last
    ensures Linked(tree, last, a)
    decreases b
  {
    AncestorHeight(b, a);
    if b != a {
      AncestorHeight(b.node.parent, a);
      LinkedBelow(tree, last, b.node.parent, a);
    }
  }

  lemma SameNext(last: int, a: Hash, b: Hash)
    requires HeightConsistent(a) && HeightConsistent(b) && a.NodeHash? && b.NodeHash?
    requires (Extends(a, b) || Extends(b, a)) && a.node.height > last >= -1 && b.node.height > last
    ensures FirstAbove(last, a) == FirstAbove(last, b)
  {
    FirstAboveProps(last, a);
    FirstAboveProps(last, b);
    if Extends(a, b) {
      ExtendsTransitive(a, b, FirstAbove(last, b));
      UniqueAtHeight(a, FirstAbove(last, a), FirstAbove(last, b));
    } else {
      ExtendsTransitive(b, a, FirstAbove(last, a));
      UniqueAtHeight(b, FirstAbove(last, a), FirstAbove(last, b));
    }
  }

  ghost predicate OneBranch(a: Hash, b: Hash) {
    && a.NodeHash? && b.NodeHash? && HeightConsistent(a) && HeightConsistent(b)
    && (Extends(a, b) || Extends(b, a))
  }

  /** If b cannot run now, running a does not unblock it. */
  lemma Blocked(env: Env, tree: Tree, ex: Exec, a: Hash, b: Hash)
    requires OneBranch(a, b) && ex.last >= -1 && !ex.panicked
    requires b.node.height > ex.last && !Linked(tree, ex.last, b)
    ensures var ex' := TryExecute(env, tree, ex, a); TryExecute(env, tree, ex', b) == ex'
  {
    var ex' := TryExecute(env, tree, ex, a);
    Unfold(env, tree, ex, a);
    LastBounds(env, tree, ex, a);
    if ex'.panicked {
      PanickedStops(env, tree, ex', b);
    } else {
      Unfold(env, tree, ex', b);
      if a.node.height > ex.last && Linked(tree, ex.last, a) && b.node.height > ex'.last && Linked(tree, ex'.last, b) {
        if Extends(a, b) {
          LinkedBelow(tree, ex.last, a, b);
        } else {
          LinkedThrough(tree, ex.last, ex'.last, b, a);
        }
      } else {
        Unfold(env, tree, ex, b);
      }
    }
  }

  /** A node at or below the executed height changes nothing. */
  lemma Done(env: Env, tree: Tree, ex: Exec, a: Hash)
    requires HeightConsistent(a) && a.NodeHash? && ex.last >= -1 && a.node.height <= ex.last
    ensures TryExecute(env, tree, ex, a) == ex
  {
    if !ex.panicked { Unfold(env, tree, ex, a); }
  }

  /** Executing towards two nodes of one branch commutes, and repeating one changes nothing. */
  lemma {:induction false} Commute(env: Env, tree: Tree, ex: Exec, a: Hash, b: Hash)
    requires OneBranch(a, b) && ex.last >= -1
    ensures TryExecute(env, tree, TryExecute(env, tree, ex, a), b)
         == TryExecute(env, tree, TryExecute(env, tree, ex, b), a)
    ensures a == b ==> TryExecute(env, tree, TryExecute(env, tree, ex, a), a) == TryExecute(env, tree, ex, a)
    decreases a.node.height + b.node.height - 2 * ex.last
  {
    if ex.panicked {
      PanickedStops(env, tree, ex, a);
      PanickedStops(env, tree, ex, b);
      return;
    }
    Unfold(env, tree, ex, a);
    Unfold(env, tree, ex, b);
    LastBounds(env, tree, ex, a);
    LastBounds(env, tree, ex, b);
    if a.node.height <= ex.last {
      Done(env, tree, TryExecute(env, tree, ex, b), a);
    } else if b.node.height <= ex.last {
      Done(env, tree, TryExecute(env, tree, ex, a), b);
    } else if !Linked(tree, ex.last, b) {
      Blocked(env, tree, ex, a, b);
    } else if !Linked(tree, ex.last, a) {
      Blocked(env, tree, ex, b, a);
    } else {
      SameNext(ex.last, a, b);
      CommuteNext(env, tree, ex, a, b, FirstAbove(ex.last, a));
    }
  }

  lemma {:induction false} CommuteNext(env: Env, tree: Tree, ex: Exec, a: Hash, b: Hash, c: Hash)
    requires OneBranch(a, b) && ex.last >= -1 && !ex.panicked
    requires a.node.height > ex.last && b.node.height > ex.last && Linked(tree, ex.last, a) && Linked(tree, ex.last, b)
    requires c == FirstAbove(ex.last, a) == FirstAbove(ex.last, b)
    ensures TryExecute(env, tree, TryExecute(env, tree, ex, a), b)
         == TryExecute(env, tree, TryExecute(env, tree, ex, b), a)
    ensures a == b ==> TryExecute(env, tree, TryExecute(env, tree, ex, a), a) == TryExecute(env, tree, ex, a)
    decreases a.node.height + b.node.height - 2 * ex.last, 0
  {
    Unfold(env, tree, ex, a);
    Unfold(env, tree, ex, b);
    if Ready(tree, ex, c) {
      var ex' := Apply(tree, ex, c);
      if ex'.panicked {
        PanickedStops(env, tree, ex', a);
        PanickedStops(env, tree, ex', b);
      } else {
        Commute(env, tree, ex', a, b);
      }
    } else {
      var ex' := Stall(env, tree, ex, c);
      StallFacts(env, tree, ex, c);
      if ex'.panicked {
        PanickedStops(env, tree, ex', a);
        PanickedStops(env, tree, ex', b);
      } else {
        Unfold(env, tree, ex', a);
        Unfold(env, tree, ex', b);
      }
    }
  }

  // ----- any order of the decided set -----

  ghost predicate OneChain(order: seq<Hash>) {
    forall a, b | a in order && b in order :: OneBranch(a, b)
  }

  lemma {:induction false} RetryAbsorbs(env: Env, tree: Tree, ex: Exec, x: Hash, order: seq<Hash>)
    requires OneChain(order) && x in order && ex.last >= -1
    ensures RetryPending(env, tree, TryExecute(env, tree, ex, x), order) == RetryPending(env, tree, ex, order)
    decreases |order|
  {
    var y, rest := order[0], order[1..];
    assert OneBranch(x, y) && OneBranch(x, x) && OneBranch(y, y);
    Commute(env, tree, ex, x, y);
    LastBounds(env, tree, ex, y);
    RetryStep(env, tree, ex, order);
    RetryStep(env, tree, TryExecute(env, tree, ex, x), order);
    if x == y {
      Commute(env, tree, ex, x, x);
    } else {
      RetryAbsorbs(env, tree, TryExecute(env, tree, ex, y), x, rest);
    }
  }

  lemma RetryStep(env: Env, tree: Tree, ex: Exec, order: seq<Hash>)
    requires order != []
    ensures RetryPending(env, tree, ex, order)
         == RetryPending(env, tree, TryExecute(env, tree, ex, order[0]), order[1..])
  {
    if ex.panicked {
      PanickedStops(env, tree, ex, order[0]);
    }
  }

  /** Executing towards one more node commutes with the whole pass. */
  lemma {:induction false} RetrySettles(env: Env, tree: Tree, ex: Exec, x: Hash, order: seq<Hash>)
    requires OneChain(order) && x.NodeHash? && ex.last >= -1
    requires forall y | y in order :: OneBranch(x, y)
    ensures TryExecute(env, tree, RetryPending(env, tree, ex, order), x)
         == RetryPending(env, tree, TryExecute(env, tree, ex, x), order)
    decreases |order|
  {
    if order != [] {
      var y := order[0];
      assert OneBranch(x, y) && OneBranch(y, y);
      Commute(env, tree, ex, x, y);
      LastBounds(env, tree, ex, y);
      RetryStep(env, tree, ex, order);
      RetryStep(env, tree, TryExecute(env, tree, ex, x), order);
      RetrySettles(env, tree, TryExecute(env, tree, ex, y), x, order[1..]);
    }
  }

  /** A pass over nodes that make no progress is a no-op. */
  lemma {:induction false} RetryNoop(env: Env, tree: Tree, ex: Exec, order: seq<Hash>)
    requires forall x | x in order :: TryExecute(env, tree, ex, x) == ex
    ensures RetryPending(env, tree, ex, order) == ex
    decreases |order|
  {
    if order != [] && !ex.panicked {
      RetryNoop(env, tree, ex, order[1..]);
    }
  }

  lemma {:induction false} RetryAbsorbsAll(env: Env, tree: Tree, ex: Exec, first: seq<Hash>, order: seq<Hash>)
    requires OneChain(order) && ex.last >= -1 && forall x | x in first :: x in order
    ensures RetryPending(env, tree, RetryPending(env, tree, ex, first), order) == RetryPending(env, tree, ex, order)
    decreases |first|
  {
    if first != [] {
      assert OneBranch(first[0], first[0]);
      RetryStep(env, tree, ex, first);
      LastBounds(env, tree, ex, first[0]);
      RetryAbsorbsAll(env, tree, TryExecute(env, tree, ex, first[0]), first[1..], order);
      RetryAbsorbs(env, tree, ex, first[0], order);
    }
  }

  /** Order independence: any two orders of the same nodes of one branch end in the same state,
      executed height, root and validation requests included. */
  lemma RetryOrderIndependent(env: Env, tree: Tree, ex: Exec, order: seq<Hash>, order': seq<Hash>)
    requires OneChain(order) && ex.last >= -1
    requires forall x :: x in order <==> x in order'
    ensures RetryPending(env, tree, ex, order) == RetryPending(env, tree, ex, order')
  {
    var end := RetryPending(env, tree, ex, order);
    forall x | x in order' ensures TryExecute(env, tree, end, x) == end {
      RetryComplete(env, tree, ex, order, x);
    }
    RetryNoop(env, tree, end, order');
    RetryAbsorbsAll(env, tree, ex, order, order');
  }

  /** After the pass no node of it can make further progress. */
  lemma RetryComplete(env: Env, tree: Tree, ex: Exec, order: seq<Hash>, x: Hash)
    requires OneChain(order) && ex.last >= -1 && x in order
    ensures var end := RetryPending(env, tree, ex, order); TryExecute(env, tree, end, x) == end
  {
    assert OneBranch(x, x);
    RetrySettles(env, tree, ex, x, order);
    RetryAbsorbs(env, tree, ex, x, order);
  }

  // ----- chain breaks -----

  /** The next node of the branch of `d` is validated and claims another pre-root than the one reached. */
  predicate BreaksAt(tree: Tree, ex: Exec, d: Hash, h: Hash) {
    h in Chain(tree, ex.last, d) && Ready(tree, ex, h) && ChainBreak(tree, ex, h)
  }

  lemma {:induction false} NextIsFirst(tree: Tree, last: int, d: Hash, h: Hash)
    requires HeightConsistent(d) && h in Chain(tree, last, d) && tree[h].height == last + 1
    ensures Chain(tree, last, d)[0] == h
    decreases d
  {
    var parent := tree[d].parent;
    assert parent in tree ==> HeightStep(tree[d]) && tree[parent] == parent.node;
    if h != d {
      NextIsFirst(tree, last, parent, h);
    }
  }

  lemma BreakPanics(env: Env, tree: Tree, ex: Exec, d: Hash, h: Hash)
    requires HeightConsistent(d) && BreaksAt(tree, ex, d, h)
    ensures TryExecute(env, tree, ex, d).panicked
  {
    NextIsFirst(tree, ex.last, d, h);
    var chain := Chain(tree, ex.last, d);
    assert !ex.panicked ==> TryExecute(env, tree, ex, d) == RunChain(env, tree, Apply(tree, ex, h), chain[1..]);
  }
}
