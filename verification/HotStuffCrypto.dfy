/** Signature shares and quorum certificates. A signature is a term that names the vote it signs, and the
    token of a certificate is a term that names the record it was computed from. */
module HotStuffCrypto {
  import opened Quorums
  import opened HotStuffTree
  import opened HotStuffVotes

  datatype Option<T> = None | Some(value: T)

  datatype Signature = SignedBy(vote: Vote) | Garbage(text: string)

  datatype Share = Share(signer: int, sig: Signature)

  datatype Record = Record(kind: Kind, view: int, hash: Hash, shares: map<int, Share>)

  datatype Token = DigestOf(record: Record) | OtherToken(text: string)

  datatype QC = QC(kind: Kind, view: int, hash: Hash, token: Token)

  type Certificates = map<Token, Record>

  predicate ShareOk(n: nat, share: Share, kind: Kind, view: int, hash: Hash) {
    0 <= share.signer < n && share.sig == SignedBy(Vote(share.signer, kind, view, hash))
  }

  /** Every share is filed under its own signer and signs this vote. */
  predicate SharesOk(n: nat, shares: map<int, Share>, kind: Kind, view: int, hash: Hash) {
    forall id :: id in shares ==> shares[id].signer == id && ShareOk(n, shares[id], kind, view, hash)
  }

  predicate Combines(n: nat, shares: map<int, Share>, kind: Kind, view: int, hash: Hash) {
    |shares| >= QuorumSize(n) && SharesOk(n, shares, kind, view, hash)
  }

  function Registered(certs: Certificates, record: Record): Certificates {
    certs[DigestOf(record) := record]
  }

  predicate Verifies(n: nat, certs: Certificates, qc: QC) {
    && qc.token != OtherToken("") && qc.token in certs
    && var record := certs[qc.token];
       && record.kind == qc.kind && record.view == qc.view && record.hash == qc.hash
       && Combines(n, record.shares, qc.kind, qc.view, qc.hash)
  }

  /** The certificates and their shares, kept by all replicas together. */
  class ThresholdVerifier {
    const n: nat
    var certificates: Certificates

    constructor (n: nat)
      ensures this.n == n && certificates == map[]
    {
      this.n := n;
      certificates := map[];
    }

    method CheckShares(shares: map<int, Share>, kind: Kind, view: int, hash: Hash) returns (ok: bool)
      ensures ok <==> SharesOk(n, shares, kind, view, hash)
    {
      var todo := shares.Keys;
      while todo != {}
        invariant todo <= shares.Keys
        invariant forall id :: id in shares && id !in todo ==> shares[id].signer == id && ShareOk(n, shares[id], kind, view, hash)
      {
        NonEmpty(todo);
        var id :| id in todo;
        if id != shares[id].signer || !ShareOk(n, shares[id], kind, view, hash) {
          return false;
        }
        todo := todo - {id};
      }
      return true;
    }

    method Combine(kind: Kind, view: int, hash: Hash, shares: map<int, Share>) returns (token: Option<Token>)
      modifies this
      ensures token.Some? <==> Combines(n, shares, kind, view, hash)
      ensures token.Some? ==> token.value == DigestOf(Record(kind, view, hash, shares))
      ensures certificates == if token.Some? then Registered(old(certificates), Record(kind, view, hash, shares)) else old(certificates)
    {
      if |shares| < QuorumSize(n) {
        return None;
      }
      var ok := CheckShares(shares, kind, view, hash);
      if !ok {
        return None;
      }
      var record := Record(kind, view, hash, shares);
      certificates := certificates[DigestOf(record) := record];
      return Some(DigestOf(record));
    }

    method VerifyQC(qc: QC) returns (ok: bool)
      ensures ok <==> Verifies(n, certificates, qc)
    {
      if qc.token == OtherToken("") || qc.token !in certificates {
        return false;
      }
      var record := certificates[qc.token];
      if record.kind != qc.kind || record.view != qc.view || record.hash != qc.hash {
        return false;
      }
      if |record.shares| < QuorumSize(n) {
        return false;
      }
      ok := CheckShares(record.shares, qc.kind, qc.view, qc.hash);
    }
  }

  // ---------- what a verified certificate is worth ----------

  /** A share that names a vote of a correct replica was made by that replica. */
  ghost predicate SharesGenuine(signed: set<Vote>, shares: map<int, Share>) {
    forall id :: id in shares && shares[id].sig.SignedBy? ==> shares[id].sig.vote in signed
  }

  ghost predicate CertificatesGenuine(signed: set<Vote>, certs: Certificates) {
    forall t :: t in certs ==> SharesGenuine(signed, certs[t].shares)
  }

  /** A certificate that verifies stands for a quorum of distinct signers. */
  lemma VerifiedIsCertified(k: Cluster, signed: set<Vote>, certs: Certificates, qc: QC)
    requires CertificatesGenuine(signed, certs) && Verifies(k.n, certs, qc)
    ensures Certified(k, signed, qc.kind, qc.view, qc.hash)
  {
    var shares := certs[qc.token].shares;
    var signers := Signers(k, signed, qc.kind, qc.view, qc.hash);
    forall id | id in shares ensures id in signers {
      assert shares[id].sig.vote in signed;
    }
    SubsetSize(shares.Keys, signers);
    assert |shares.Keys| == |shares|;
  }

  /** A combined certificate verifies, and so does everything that verified before. */
  lemma CombinedVerifies(n: nat, certs: Certificates, record: Record, other: QC)
    requires forall t :: t in certs ==> t == DigestOf(certs[t])
    requires Combines(n, record.shares, record.kind, record.view, record.hash)
    ensures Verifies(n, Registered(certs, record), QC(record.kind, record.view, record.hash, DigestOf(record)))
    ensures Verifies(n, certs, other) ==> Verifies(n, Registered(certs, record), other)
  {
  }
}
