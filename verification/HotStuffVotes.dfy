/** The safety argument of Basic HotStuff over a bare set of signed votes: certificates of one phase and
    view certify one node, every certificate implies the ones below it, and two commit certificates
    certify nodes of one branch. */
module HotStuffVotes {
  import opened Quorums
  import opened HotStuffTree

  datatype Kind = NewView | Prepare | PreCommit | Commit | Decide

  datatype Vote = Vote(signer: int, kind: Kind, view: int, hash: Hash)

  /** How many faulty replicas a cluster of n tolerates. */
  function FaultBound(n: nat): nat {
    if n == 0 then 0 else (n - 1) / 3
  }

  function QuorumSize(n: nat): nat {
    n - FaultBound(n)
  }

  /** The replicas 0..n-1 and the faulty ones among them. */
  datatype Cluster = Cluster(n: nat, faulty: set<int>)
  {
    predicate Correct(p: int) {
      0 <= p < n && p !in faulty
    }

    predicate Tolerable() {
      n > 0 && |faulty| <= FaultBound(n)
    }
  }

  ghost function Signers(k: Cluster, votes: set<Vote>, kind: Kind, view: int, hash: Hash): set<int> {
    set v | v in votes && v.kind == kind && v.view == view && v.hash == hash && 0 <= v.signer < k.n :: v.signer
  }

  /** A quorum of replicas signed for this node. */
  ghost predicate Certified(k: Cluster, votes: set<Vote>, kind: Kind, view: int, hash: Hash) {
    |Signers(k, votes, kind, view, hash)| >= QuorumSize(k.n)
  }

  lemma CertifiedGrows(k: Cluster, votes: set<Vote>, more: set<Vote>, kind: Kind, view: int, hash: Hash)
    requires votes <= more && Certified(k, votes, kind, view, hash)
    ensures Certified(k, more, kind, view, hash)
  {
    SubsetSize(Signers(k, votes, kind, view, hash), Signers(k, more, kind, view, hash));
  }

  /** A correct replica that signed in two certificates. */
  lemma CommonSigner(k: Cluster, votes: set<Vote>, more: set<Vote>, k1: Kind, v1: int, h1: Hash, k2: Kind, v2: int, h2: Hash) returns (p: int)
    requires k.Tolerable() && Certified(k, votes, k1, v1, h1) && Certified(k, more, k2, v2, h2)
    ensures k.Correct(p) && Vote(p, k1, v1, h1) in votes && Vote(p, k2, v2, h2) in more
  {
    p := CommonCorrectMember(Signers(k, votes, k1, v1, h1), Signers(k, more, k2, v2, h2), k.faulty, k.n);
  }

  /** At most one vote per phase and view. */
  ghost predicate VotesOnce(votes: set<Vote>, p: int) {
    forall a, b :: a in votes && b in votes && a.signer == b.signer == p && a.kind == b.kind && a.view == b.view ==> a.hash == b.hash
  }

  /** A vote of a later phase follows a certificate of the phase before it. */
  ghost predicate Climbs(k: Cluster, votes: set<Vote>, p: int) {
    forall v :: v in votes && v.signer == p ==>
      && (v.kind == PreCommit ==> Certified(k, votes, Prepare, v.view, v.hash))
      && (v.kind == Commit ==> Certified(k, votes, PreCommit, v.view, v.hash))
  }

  ghost predicate Orderly(k: Cluster, votes: set<Vote>) {
    forall p :: k.Correct(p) ==> VotesOnce(votes, p) && Climbs(k, votes, p)
  }

  lemma CertificatesOfOneViewAgree(k: Cluster, votes: set<Vote>, kind: Kind, view: int, h1: Hash, h2: Hash)
    requires k.Tolerable() && Orderly(k, votes)
    requires Certified(k, votes, kind, view, h1) && Certified(k, votes, kind, view, h2)
    ensures h1 == h2
  {
    var p := CommonSigner(k, votes, votes, kind, view, h1, kind, view, h2);
  }

  lemma CertificateLadder(k: Cluster, votes: set<Vote>, view: int, hash: Hash)
    requires k.Tolerable() && Orderly(k, votes)
    ensures Certified(k, votes, Commit, view, hash) ==> Certified(k, votes, PreCommit, view, hash)
    ensures Certified(k, votes, PreCommit, view, hash) ==> Certified(k, votes, Prepare, view, hash)
  {
    if Certified(k, votes, Commit, view, hash) {
      var p := CommonSigner(k, votes, votes, Commit, view, hash, Commit, view, hash);
    }
    if Certified(k, votes, PreCommit, view, hash) {
      var p := CommonSigner(k, votes, votes, PreCommit, view, hash, PreCommit, view, hash);
    }
  }

  // ---------- locks ----------

  /** `hash` extends a node with a prepare certificate from a view in low..high-1. */
  ghost predicate Backed(k: Cluster, votes: set<Vote>, low: int, high: int, hash: Hash) {
    exists u, y :: low <= u < high && Certified(k, votes, Prepare, u, y) && Extends(hash, y)
  }

  /** After a commit vote, `p` prepares in a later view only what a certificate at least as recent backs. */
  ghost predicate LocksRespected(k: Cluster, votes: set<Vote>, early: set<Vote>, p: int) {
    forall a, b :: a in votes && b in early && a.signer == b.signer == p && a.kind == Commit && b.kind == Prepare && a.view < b.view
                   ==> Backed(k, votes, a.view, b.view, b.hash)
  }

  /** A vote outside `early` was cast when its view already had a certificate of early votes. */
  ghost predicate LateVotesHarmless(k: Cluster, votes: set<Vote>, early: set<Vote>) {
    forall v :: v in votes && v !in early ==> exists y :: Certified(k, early, Prepare, v.view, y)
  }

  ghost predicate Guarded(k: Cluster, votes: set<Vote>, early: set<Vote>) {
    && Orderly(k, votes) && early <= votes && LateVotesHarmless(k, votes, early)
    && forall p :: k.Correct(p) ==> LocksRespected(k, votes, early, p)
  }

  /** Every prepare certificate is already one of early votes. */
  lemma CertifiedByEarlyVotes(k: Cluster, votes: set<Vote>, early: set<Vote>, view: int, hash: Hash)
    requires k.Tolerable() && Orderly(k, votes) && early <= votes && LateVotesHarmless(k, votes, early)
    requires Certified(k, votes, Prepare, view, hash)
    ensures Certified(k, early, Prepare, view, hash)
  {
    if v :| v in votes && v !in early && v.view == view {
      var y :| Certified(k, early, Prepare, view, y);
      CertifiedGrows(k, early, votes, Prepare, view, y);
      CertificatesOfOneViewAgree(k, votes, Prepare, view, hash, y);
    } else {
      assert Signers(k, votes, Prepare, view, hash) == Signers(k, early, Prepare, view, hash);
    }
  }

  /** Once a node has a commit certificate, later prepare certificates only certify its descendants. */
  lemma {:induction false} CommittedStays(k: Cluster, votes: set<Vote>, early: set<Vote>, w: int, x: Hash, v: int, h: Hash)
    requires k.Tolerable() && Guarded(k, votes, early) && w <= v
    requires Certified(k, votes, Commit, w, x) && Certified(k, votes, Prepare, v, h)
    ensures Extends(h, x)
    decreases v - w
  {
    if v == w {
      CertificateLadder(k, votes, w, x);
      CertificatesOfOneViewAgree(k, votes, Prepare, w, x, h);
    } else {
      CertifiedByEarlyVotes(k, votes, early, v, h);
      var p := CommonSigner(k, votes, early, Commit, w, x, Prepare, v, h);
      assert Backed(k, votes, w, v, h);
      var u, y :| w <= u < v && Certified(k, votes, Prepare, u, y) && Extends(h, y);
      CommittedStays(k, votes, early, w, x, u, y);
      ExtendsTransitive(h, y, x);
    }
  }

  lemma CommitsOnOneBranch(k: Cluster, votes: set<Vote>, early: set<Vote>, w: int, x: Hash, v: int, h: Hash)
    requires k.Tolerable() && Guarded(k, votes, early)
    requires Certified(k, votes, Commit, w, x) && Certified(k, votes, Commit, v, h)
    ensures Extends(h, x) || Extends(x, h)
  {
    CertificateLadder(k, votes, w, x);
    CertificateLadder(k, votes, v, h);
    if w <= v {
      CommittedStays(k, votes, early, w, x, v, h);
    } else {
      CommittedStays(k, votes, early, v, h, w, x);
    }
  }
}
