/** Wire format, symbolic digests and signatures (node/consensus-node/src/messages.rs).

    A 32-byte digest is a symbolic term, so hashing is injective and parent
    links are well founded. A signature is the term naming what was signed. */
module Messages {
  import opened Ledger

  datatype Option<+T> = None | Some(value: T)

  datatype MsgType = NewView | Prepare | PreCommit | Commit | Decide

  /** `NodeHash(n)` is `node_hash(n)`; `Genesis` is the all-zero sentinel. */
  datatype Hash = Genesis | NodeHash(node: Node)

  datatype Node = Node(parent: Hash, cmd: Digest, height: nat)

  /** Signing keys are identified with the replica that owns them. */
  type Key = nat

  datatype Sig = Sig(signer: Key, kind: MsgType, view: nat, node: Hash) | Garbage

  datatype QC = QC(kind: MsgType, view: nat, node: Hash, sigs: seq<(nat, Sig)>)

  datatype Wire =
    | Hello(id: nat)
    | Proposal(view: nat, node: Node, justify: Option<QC>, sender: nat)
    | PhaseQc(kind: MsgType, view: nat, cert: QC, sender: nat)
    | Vote(kind: MsgType, view: nat, hash: Hash, voter: nat, sig: Sig)
    | NewViewMsg(view: nat, justify: Option<QC>, sender: nat)

  datatype Envelope = Envelope(to: nat, msg: Wire)

  /** What a vote signature says, and who said it. */
  datatype Ballot = Ballot(voter: nat, kind: MsgType, view: nat, node: Hash)

  predicate VerifyVoteSig(pk: Key, kind: MsgType, view: nat, node: Hash, sig: Sig) {
    sig == Sig(pk, kind, view, node)
  }

  /** True ancestry: `a` is `h` or reached from `h` by parent links. */
  predicate Extends(h: Hash, a: Hash)
    decreases h
  {
    h == a || (h.NodeHash? && Extends(h.node.parent, a))
  }

  lemma {:induction false} ExtendsTransitive(a: Hash, b: Hash, c: Hash)
    requires Extends(a, b) && Extends(b, c)
    ensures Extends(a, c)
    decreases a
  {
    if a != b {
      ExtendsTransitive(a.node.parent, b, c);
    }
  }

  /** Two ancestors of one node lie on one branch. */
  lemma {:induction false} AncestorsComparable(h: Hash, a: Hash, b: Hash)
    requires Extends(h, a) && Extends(h, b)
    ensures Extends(a, b) || Extends(b, a)
    decreases h
  {
    if h != a && h != b {
      AncestorsComparable(h.node.parent, a, b);
    }
  }

  /** Every node on the branch sits one above its parent, genesis children at 0.
      `leader_prepare` builds nodes this way (Heights.dfy); the Proposal handler does not recheck it. */
  predicate HeightConsistent(h: Hash)
    decreases h
  {
    match h
    case Genesis => true
    case NodeHash(n) => HeightStep(n) && HeightConsistent(n.parent)
  }

  predicate HeightStep(n: Node) {
    n.height == if n.parent == Genesis then 0 else n.parent.node.height + 1
  }

  lemma {:induction false} AncestorHeight(h: Hash, a: Hash)
    requires HeightConsistent(h) && Extends(h, a) && a.NodeHash?
    ensures HeightConsistent(a) && a.node.height <= h.node.height
    ensures a.node.height == h.node.height ==> a == h
    decreases h
  {
    if h != a {
      AncestorHeight(h.node.parent, a);
    }
  }

  /** On a height-consistent branch a height names one ancestor. */
  lemma UniqueAtHeight(h: Hash, a: Hash, b: Hash)
    requires HeightConsistent(h) && Extends(h, a) && Extends(h, b)
    requires a.NodeHash? && b.NodeHash? && a.node.height == b.node.height
    ensures a == b
  {
    AncestorHeight(h, a);
    AncestorHeight(h, b);
    AncestorsComparable(h, a, b);
    if Extends(a, b) { AncestorHeight(a, b); } else { AncestorHeight(b, a); }
  }
}
