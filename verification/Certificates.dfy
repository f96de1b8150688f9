/** Forming, verifying and choosing quorum certificates
    (node/consensus-node/src/consensus/qc.rs and the argmax of rules.rs:43-50). */
module Certificates {
  import opened Messages
  import opened Quorums

  type Votes = map<nat, (Hash, Sig)>

  /** The fixed key map with one entry per replica. */
  function KeyMap(n: nat): map<nat, Key> {
    map i | i in Ids(n) :: i
  }

  /** Known voters with a valid signature somewhere in the list. */
  function ValidSigners(qc: QC, keys: map<nat, Key>): set<nat> {
    set v | v in keys && (v, Sig(keys[v], qc.kind, qc.view, qc.node)) in qc.sigs
  }

  predicate QcVerifies(qc: QC, quorum: nat, keys: map<nat, Key>) {
    |ValidSigners(qc, keys)| >= quorum
  }

  /** `verify_qc_sync`: accepts exactly when a quorum of distinct known voters signed, whatever
      the order, duplicates or junk in the list. */
  method VerifyQc(qc: QC, quorum: nat, keys: map<nat, Key>) returns (ok: bool)
    ensures ok <==> QcVerifies(qc, quorum, keys)
  {
    var seen: set<nat> := {};
    var count := 0;
    for i := 0 to |qc.sigs|
      invariant seen == ValidSigners(qc.(sigs := qc.sigs[..i]), keys)
      invariant count == |seen|
    {
      var (voter, sig) := qc.sigs[i];
      SignersStep(qc, keys, i);
      if voter !in seen && voter in keys && VerifyVoteSig(keys[voter], qc.kind, qc.view, qc.node, sig) {
        seen := seen + {voter};
        count := count + 1;
      }
    }
    assert qc.sigs[..|qc.sigs|] == qc.sigs;
    ok := count >= quorum;
  }

  lemma SignersStep(qc: QC, keys: map<nat, Key>, i: nat)
    requires i < |qc.sigs|
    ensures var before := ValidSigners(qc.(sigs := qc.sigs[..i]), keys);
            var after := ValidSigners(qc.(sigs := qc.sigs[..i + 1]), keys);
            var p := qc.sigs[i];
            after == if p.0 in keys && VerifyVoteSig(keys[p.0], qc.kind, qc.view, qc.node, p.1)
                     then before + {p.0} else before
  {
    assert qc.sigs[..i + 1] == qc.sigs[..i] + [qc.sigs[i]];
    var before := ValidSigners(qc.(sigs := qc.sigs[..i]), keys);
    var after := ValidSigners(qc.(sigs := qc.sigs[..i + 1]), keys);
    var p := qc.sigs[i];
    assert forall v :: v in after <==>
      (v in before || (v == p.0 && v in keys && p.1 == Sig(keys[v], qc.kind, qc.view, qc.node)));
  }

  function VotesFor(votes: Votes, h: Hash): set<nat> {
    set v | v in votes && votes[v].0 == h
  }

  /** `sigs` holds each vote for `h` once, in some order. */
  predicate Collects(votes: Votes, h: Hash, sigs: seq<(nat, Sig)>) {
    && |sigs| == |VotesFor(votes, h)|
    && (forall v | v in VotesFor(votes, h) :: (v, votes[v].1) in sigs)
    && (forall p | p in sigs :: p.0 in votes && votes[p.0] == (h, p.1))
  }

  /** What `form_qc` may return: a certificate for a node with a quorum, or nothing when there is none. */
  ghost predicate Formed(votes: Votes, kind: MsgType, view: nat, quorum: nat, r: Option<QC>) {
    match r
    case None => forall h :: |VotesFor(votes, h)| < quorum
    case Some(qc) =>
      qc.kind == kind && qc.view == view && |qc.sigs| >= quorum && Collects(votes, qc.node, qc.sigs)
  }

  /** `form_qc`, iterating over both maps in an arbitrary order. */
  method FormQc(votes: Votes, kind: MsgType, view: nat, quorum: nat) returns (r: Option<QC>)
    requires quorum > 0
    ensures Formed(votes, kind, view, quorum, r)
  {
    var byNode := GroupByNode(votes);
    var nodes := byNode.Keys;
    while nodes != {}
      invariant nodes <= byNode.Keys
      invariant forall h | h in byNode && h !in nodes :: |byNode[h]| < quorum
      decreases nodes
    {
      var h :| h in nodes;
      if |byNode[h]| >= quorum {
        return Some(QC(kind, view, h, byNode[h]));
      }
      nodes := nodes - {h};
    }
    r := None;
    forall h ensures |VotesFor(votes, h)| < quorum {
      if h !in byNode { assert VotesFor(votes, h) == {}; }
    }
  }

  type Groups = map<Hash, seq<(nat, Sig)>>

  ghost predicate Grouped(votes: Votes, byNode: Groups) {
    && (forall h | h in byNode :: Collects(votes, h, byNode[h]))
    && (forall v | v in votes :: votes[v].0 in byNode)
  }

  method GroupByNode(votes: Votes) returns (byNode: Groups)
    ensures Grouped(votes, byNode)
  {
    byNode := map[];
    var todo := votes.Keys;
    ghost var done: Votes := map[];
    while todo != {}
      invariant todo <= votes.Keys && done.Keys == votes.Keys - todo
      invariant forall v | v in done :: done[v] == votes[v]
      invariant Grouped(done, byNode)
      decreases todo
    {
      var v :| v in todo;
      var (nh, sig) := votes[v];
      GroupOne(done, byNode, v, nh, sig);
      byNode := byNode[nh := (if nh in byNode then byNode[nh] else []) + [(v, sig)]];
      done := done[v := (nh, sig)];
      todo := todo - {v};
    }
    assert done == votes;
  }

  lemma GroupOne(done: Votes, byNode: Groups, v: nat, nh: Hash, sig: Sig)
    requires v !in done && Grouped(done, byNode)
    ensures Grouped(done[v := (nh, sig)], byNode[nh := (if nh in byNode then byNode[nh] else []) + [(v, sig)]])
  {
    var done' := done[v := (nh, sig)];
    var sofar := if nh in byNode then byNode[nh] else [];
    var byNode' := byNode[nh := sofar + [(v, sig)]];
    assert nh !in byNode ==> VotesFor(done, nh) == {};
    CollectOne(done, v, nh, sig, sofar);
    forall h | h in byNode' ensures Collects(done', h, byNode'[h]) {
      if h != nh { CollectOther(done, v, nh, sig, h, byNode[h]); }
    }
  }

  lemma CollectOne(done: Votes, v: nat, nh: Hash, sig: Sig, sofar: seq<(nat, Sig)>)
    requires v !in done && Collects(done, nh, sofar)
    ensures Collects(done[v := (nh, sig)], nh, sofar + [(v, sig)])
  {
    var done' := done[v := (nh, sig)];
    assert VotesFor(done', nh) == VotesFor(done, nh) + {v};
    assert forall p | p in sofar :: p.0 in done' && done'[p.0] == (nh, p.1);
  }

  lemma CollectOther(done: Votes, v: nat, nh: Hash, sig: Sig, h: Hash, sigs: seq<(nat, Sig)>)
    requires v !in done && h != nh && Collects(done, h, sigs)
    ensures Collects(done[v := (nh, sig)], h, sigs)
  {
    assert VotesFor(done[v := (nh, sig)], h) == VotesFor(done, h);
  }

  /** Every vote of the bucket comes from a known voter and carries its valid signature. */
  ghost predicate BucketVerified(votes: Votes, kind: MsgType, view: nat, n: nat) {
    forall v | v in votes :: v < n && votes[v].1 == Sig(v, kind, view, votes[v].0)
  }

  /** A certificate formed from verified votes is accepted by every verifier. */
  lemma FormedVerifies(votes: Votes, kind: MsgType, view: nat, n: nat, quorum: nat, qc: QC)
    requires BucketVerified(votes, kind, view, n) && Formed(votes, kind, view, quorum, Some(qc))
    ensures QcVerifies(qc, quorum, KeyMap(n))
  {
    assert VotesFor(votes, qc.node) <= ValidSigners(qc, KeyMap(n));
    SubsetSize(VotesFor(votes, qc.node), ValidSigners(qc, KeyMap(n)));
  }

  /** Whether a certificate is formed, and for which node, does not depend on iteration order. */
  lemma FormedUnique(votes: Votes, kind: MsgType, view: nat, n: nat, r: Option<QC>, r': Option<QC>)
    requires n >= 1 && forall v | v in votes :: v < n
    requires Formed(votes, kind, view, Quorum(n), r) && Formed(votes, kind, view, Quorum(n), r')
    ensures r.Some? <==> r'.Some?
    ensures r.Some? ==> r.value.node == r'.value.node
  {
    if r.Some? && r'.Some? {
      var a, b := VotesFor(votes, r.value.node), VotesFor(votes, r'.value.node);
      var v := QuorumsIntersect(Config(n, {}), a, b);
    }
  }

  type NewViews = map<nat, Option<QC>>

  /** The justify of highest view among the NEW-VIEW messages, absent when all are absent. */
  ghost predicate Highest(msgs: NewViews, r: Option<QC>) {
    && (r.Some? ==> exists s :: s in msgs && msgs[s] == r)
    && (forall s | s in msgs && msgs[s].Some? :: r.Some? && msgs[s].value.view <= r.value.view)
  }

  method HighQc(msgs: NewViews) returns (r: Option<QC>)
    ensures Highest(msgs, r)
  {
    r := None;
    var todo := msgs.Keys;
    while todo != {}
      invariant todo <= msgs.Keys
      invariant r.Some? ==> exists s :: s in msgs && msgs[s] == r
      invariant forall s | s in msgs && s !in todo && msgs[s].Some? :: r.Some? && msgs[s].value.view <= r.value.view
      decreases todo
    {
      var s :| s in todo;
      if msgs[s].Some? && (r.None? || r.value.view <= msgs[s].value.view) {
        r := msgs[s];
      }
      todo := todo - {s};
    }
  }
}
