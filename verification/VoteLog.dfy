/** The vote log: every ballot signed by a correct replica, in signing order.

    `LogOk` says when each entry was allowed given only the entries before it.
    Agreement is proved about such logs; Runs.dfy proves that every run of the
    replicas produces one. The induction is on the length of a log prefix, since
    a proposal's justify may carry any view (handlers.rs:51-69). */
module VoteLog {
  import opened Messages
  import opened Quorums

  type Log = seq<Ballot>

  /** Replicas that can back (kind, view, node): faulty ones always, correct ones by their ballot. */
  function Supporters(c: Config, log: Log, kind: MsgType, view: nat, node: Hash): set<nat> {
    set s | s in Ids(c.n) && (s in c.faulty || Ballot(s, kind, view, node) in log)
  }

  predicate Certified(c: Config, log: Log, kind: MsgType, view: nat, node: Hash)
  {
    |Supporters(c, log, kind, view, node)| >= Quorum(c.n)
  }

  /** Replica `r` is locked at (w, node): its COMMIT ballot of highest view. */
  ghost predicate Locked(log: Log, r: nat, w: nat, node: Hash) {
    Ballot(r, Commit, w, node) in log
    && forall b | b in log && b.voter == r && b.kind == Commit :: b.view <= w
  }

  /** The SafeNode rule over true ancestry and certified justifications. */
  ghost predicate SafeFor(c: Config, log: Log, node: Hash, w: nat, locked: Hash)
  {
    Extends(node, locked)
    || (node.NodeHash? && exists kind, v :: v > w && Certified(c, log, kind, v, node.node.parent))
  }

  ghost predicate EntryOk(c: Config, log: Log, b: Ballot)
  {
    && Correct(c, b.voter)
    && (forall x | x in log && x.voter == b.voter ::
          x.view <= b.view && (x.view == b.view ==> x.kind != b.kind))
    && match b.kind {
         case Prepare => forall w, l | Locked(log, b.voter, w, l) :: SafeFor(c, log, b.node, w, l)
         case PreCommit => Certified(c, log, Prepare, b.view, b.node)
         case Commit => Certified(c, log, PreCommit, b.view, b.node)
         case _ => false
       }
  }

  ghost predicate AllowedAt(c: Config, log: Log, i: nat)
    requires i < |log|
  {
    EntryOk(c, log[..i], log[i])
  }

  ghost predicate LogOk(c: Config, log: Log)
  {
    forall i: nat | i < |log| :: AllowedAt(c, log, i)
  }

  lemma LogOkAppend(c: Config, log: Log, b: Ballot)
    requires ValidConfig(c) && LogOk(c, log) && EntryOk(c, log, b)
    ensures LogOk(c, log + [b])
  {
    forall i: nat | i < |log| + 1 ensures AllowedAt(c, log + [b], i) {
      assert (log + [b])[..i] == log[..i];
      assert if i < |log| then AllowedAt(c, log, i) else log[..i] == log;
    }
  }

  lemma LogOkPrefix(c: Config, log: Log, i: nat)
    requires ValidConfig(c) && LogOk(c, log) && i <= |log|
    ensures LogOk(c, log[..i])
  {
    forall j: nat | j < i ensures AllowedAt(c, log[..i], j) {
      assert AllowedAt(c, log, j) && log[..i][..j] == log[..j];
    }
  }

  /** Certification survives as the log grows. */
  lemma CertifiedMonotone(c: Config, log: Log, log': Log, kind: MsgType, view: nat, node: Hash)
    requires Certified(c, log, kind, view, node)
    requires forall b | b in log :: b in log'
    ensures Certified(c, log', kind, view, node)
  {
    SubsetSize(Supporters(c, log, kind, view, node), Supporters(c, log', kind, view, node));
  }

  /** A certificate carries the ballot of some correct replica. */
  lemma CorrectSupporter(c: Config, log: Log, kind: MsgType, view: nat, node: Hash) returns (r: nat)
    requires ValidConfig(c) && Certified(c, log, kind, view, node)
    ensures Correct(c, r) && Ballot(r, kind, view, node) in log
  {
    var s := Supporters(c, log, kind, view, node);
    r := QuorumsIntersect(c, s, s);
  }

  lemma CommonSupporter(c: Config, log1: Log, k1: MsgType, v1: nat, n1: Hash,
                        log2: Log, k2: MsgType, v2: nat, n2: Hash) returns (r: nat)
    requires ValidConfig(c) && Certified(c, log1, k1, v1, n1) && Certified(c, log2, k2, v2, n2)
    ensures Correct(c, r) && Ballot(r, k1, v1, n1) in log1 && Ballot(r, k2, v2, n2) in log2
  {
    r := QuorumsIntersect(c, Supporters(c, log1, k1, v1, n1), Supporters(c, log2, k2, v2, n2));
  }

  /** Position of a ballot in the log. */
  lemma IndexOf(log: Log, b: Ballot) returns (i: nat)
    requires b in log
    ensures i < |log| && log[i] == b
  {
    i :| 0 <= i < |log| && log[i] == b;
  }

  /** Every certificate, of any type, rests on a PREPARE quorum that was complete no later. */
  lemma CertifiedPrepare(c: Config, log: Log, kind: MsgType, view: nat, node: Hash) returns (i: nat)
    requires ValidConfig(c) && LogOk(c, log) && Certified(c, log, kind, view, node)
    ensures kind in {Prepare, PreCommit, Commit}
    ensures i <= |log| && Certified(c, log[..i], Prepare, view, node)
    ensures kind != Prepare ==> i < |log|
  {
    var r := CorrectSupporter(c, log, kind, view, node);
    var j := IndexOf(log, Ballot(r, kind, view, node));
    assert AllowedAt(c, log, j);
    match kind {
      case Prepare => i := |log|; assert log[..i] == log;
      case PreCommit => i := j;
      case Commit =>
        var s := CorrectSupporter(c, log[..j], PreCommit, view, node);
        i := IndexOf(log[..j], Ballot(s, PreCommit, view, node));
        assert AllowedAt(c, log, i);
    }
  }

  /** Views of one voter never go down, and a phase is not repeated within a view. */
  lemma VoterOrder(c: Config, log: Log, i: nat, j: nat)
    requires ValidConfig(c) && LogOk(c, log) && i < j < |log| && log[i].voter == log[j].voter
    ensures log[i].view <= log[j].view
    ensures log[i].view == log[j].view ==> log[i].kind != log[j].kind
  {
    assert AllowedAt(c, log, j);
    assert log[..j][i] == log[i];
  }

  /** A correct replica signs at most one ballot per (phase, view). */
  lemma OneBallotPerPhase(c: Config, log: Log, a: Ballot, b: Ballot)
    requires ValidConfig(c) && LogOk(c, log) && a in log && b in log
    requires a.voter == b.voter && a.kind == b.kind && a.view == b.view
    ensures a == b
  {
    var i := IndexOf(log, a);
    var j := IndexOf(log, b);
    if i < j { VoterOrder(c, log, i, j); } else if j < i { VoterOrder(c, log, j, i); }
  }

  /** Certificate uniqueness across phases: in one view all certificates name one node. */
  lemma CertificateUnique(c: Config, log: Log, k1: MsgType, n1: Hash, k2: MsgType, n2: Hash, view: nat)
    requires ValidConfig(c) && LogOk(c, log)
    requires Certified(c, log, k1, view, n1) && Certified(c, log, k2, view, n2)
    ensures n1 == n2
  {
    var i := CertifiedPrepare(c, log, k1, view, n1);
    var j := CertifiedPrepare(c, log, k2, view, n2);
    var r := CommonSupporter(c, log[..i], Prepare, view, n1, log[..j], Prepare, view, n2);
    OneBallotPerPhase(c, log, Ballot(r, Prepare, view, n1), Ballot(r, Prepare, view, n2));
  }

  /** A replica with a COMMIT ballot has a lock at least as new. */
  lemma {:induction false} LockExists(log: Log, r: nat, v: nat, node: Hash) returns (w: nat, locked: Hash)
    requires Ballot(r, Commit, v, node) in log
    ensures w >= v && Locked(log, r, w, locked)
  {
    var last := log[|log| - 1];
    var rest := log[..|log| - 1];
    assert log == rest + [last];
    if exists b :: b in rest && b.voter == r && b.kind == Commit {
      var b :| b in rest && b.voter == r && b.kind == Commit;
      if Ballot(r, Commit, v, node) in rest {
        w, locked := LockExists(rest, r, v, node);
      } else {
        w, locked := LockExists(rest, r, b.view, b.node);
      }
      if last.voter == r && last.kind == Commit && last.view >= w {
        w, locked := last.view, last.node;
      }
    } else {
      w, locked := v, node;
    }
  }

  /** A correct replica that voted COMMIT in view v and later backs view v' > v did so in that order. */
  lemma CommitBeforeLater(c: Config, log: Log, r: nat, v: nat, n: Hash, j: nat)
    requires ValidConfig(c) && LogOk(c, log) && Ballot(r, Commit, v, n) in log
    requires j < |log| && log[j].voter == r && log[j].view > v
    ensures Ballot(r, Commit, v, n) in log[..j]
  {
    var k := IndexOf(log, Ballot(r, Commit, v, n));
    if j < k { VoterOrder(c, log, j, k); }
    assert log[..j][k] == log[k];
  }

  /** Core of agreement: once (v, n) has a COMMIT quorum, every PREPARE quorum of view v or
      later, complete within any prefix, is for a descendant of n. */
  lemma {:induction false} PrepareAfterCommit(c: Config, log: Log, v: nat, n: Hash, i: nat, v': nat, n': Hash)
    requires ValidConfig(c) && LogOk(c, log) && Certified(c, log, Commit, v, n)
    requires i <= |log| && Certified(c, log[..i], Prepare, v', n') && v' >= v
    ensures Extends(n', n)
    decreases i
  {
    if v' == v {
      CertifiedMonotone(c, log[..i], log, Prepare, v', n');
      CertificateUnique(c, log, Commit, n, Prepare, n', v);
      return;
    }
    var r := CommonSupporter(c, log, Commit, v, n, log[..i], Prepare, v', n');
    var j := IndexOf(log[..i], Ballot(r, Prepare, v', n'));
    assert AllowedAt(c, log, j);
    CommitBeforeLater(c, log, r, v, n, j);
    var w, l := LockExists(log[..j], r, v, n);
    LogOkPrefix(c, log, j);
    LockExtends(c, log, v, n, j, r, w, l);
    assert SafeFor(c, log[..j], n', w, l);
    if Extends(n', l) {
      ExtendsTransitive(n', l, n);
    } else {
      var kind, u :| u > w && Certified(c, log[..j], kind, u, n'.node.parent);
      var m := CertifiedPrepare(c, log[..j], kind, u, n'.node.parent);
      assert log[..j][..m] == log[..m];
      PrepareAfterCommit(c, log, v, n, m, u, n'.node.parent);
    }
  }

  lemma {:induction false} LockExtends(c: Config, log: Log, v: nat, n: Hash, j: nat, r: nat, w: nat, l: Hash)
    requires ValidConfig(c) && LogOk(c, log) && Certified(c, log, Commit, v, n)
    requires j < |log| && Ballot(r, Commit, w, l) in log[..j] && w >= v
    ensures Extends(l, n)
    decreases j
  {
    var k := IndexOf(log[..j], Ballot(r, Commit, w, l));
    assert AllowedAt(c, log, k);
    LogOkPrefix(c, log, k);
    var m := CertifiedPrepare(c, log[..k], PreCommit, w, l);
    assert log[..k][..m] == log[..m];
    PrepareAfterCommit(c, log, v, n, m, w, l);
  }

  /** Agreement, strong form: any certificate of a view not before a commit certificate's extends it. */
  lemma LaterCertificateExtends(c: Config, log: Log, v: nat, n: Hash, kind: MsgType, v': nat, n': Hash)
    requires ValidConfig(c) && LogOk(c, log)
    requires Certified(c, log, Commit, v, n) && Certified(c, log, kind, v', n') && v' >= v
    ensures Extends(n', n)
  {
    var i := CertifiedPrepare(c, log, kind, v', n');
    PrepareAfterCommit(c, log, v, n, i, v', n');
  }

  /** Agreement: two committed nodes never conflict. */
  lemma CommitsAgree(c: Config, log: Log, v1: nat, n1: Hash, v2: nat, n2: Hash)
    requires ValidConfig(c) && LogOk(c, log)
    requires Certified(c, log, Commit, v1, n1) && Certified(c, log, Commit, v2, n2)
    ensures Extends(n1, n2) || Extends(n2, n1)
  {
    if v1 <= v2 {
      LaterCertificateExtends(c, log, v1, n1, Commit, v2, n2);
    } else {
      LaterCertificateExtends(c, log, v2, n2, Commit, v1, n1);
    }
  }
}
