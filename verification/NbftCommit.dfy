/** From out-prepare messages to the second broadcast: a representative that reaches the vote threshold sends
    a COMMIT with its proof, the primary checks and forwards it, and the replicas check it again. */
module NbftCommit {
  import opened NbftRing
  import opened NbftLedger

  datatype Option<T> = None | Some(value: T)

  datatype OutPrepare = OutPrepare(sender: string, view: int, digest: string, sigs: set<string>)

  /** COMMIT and PREPREPARE2 carry the same claim: a digest, its proof and its vote count. */
  datatype Claim = Claim(digest: string, sigs: set<string>, votes: int)

  // ---------- the representative ----------

  /** What a message adds to the ledger under the grouping that the node knows now. */
  function Contribution(ms: Membership, msg: OutPrepare): Option<Addition>
    requires |ms.representatives| == |ms.groups|
  {
    GroupFromFinds(ms, msg.sender, 0);
    var g := GroupFrom(ms, msg.sender, 0);
    if g == -1 then
      if msg.sender in ms.ungrouped then Some(FromUngrouped(msg.sender, msg.digest, msg.sigs)) else None
    else if msg.sender == ms.representatives[g] then Some(FromRepresentative(g, msg.digest, msg.sigs))
    else Some(FromMember(g, msg.digest, msg.sigs))
  }

  predicate IsRepresentative(ms: Membership, id: string)
    requires |ms.representatives| == |ms.groups|
  {
    GroupFromFinds(ms, id, 0);
    var g := GroupFrom(ms, id, 0);
    g != -1 && ms.representatives[g] == id
  }

  /** The ledger, which files by the grouping `filed`, after a message judged by the grouping `ms`. */
  function Taken(filed: Membership, ms: Membership, l: Ledger, msg: OutPrepare): Ledger
    requires |ms.representatives| == |ms.groups| == |filed.groups|
  {
    if Contribution(ms, msg).Some? then
      ContributionFits(ms, msg);
      Added(filed, l, Contribution(ms, msg).value)
    else l
  }

  /** The part of a round's state that belongs to voting. */
  datatype RoundView = RoundView(ledger: Ledger, commitSent: bool)

  function ClaimOf(l: Ledger, p: Params, groups: nat, digest: string): Claim
    requires p.m > 0
  {
    Claim(digest, ProofSignatures(l, digest), VotesFor(p, l, digest, groups))
  }

  /** The COMMIT that the threshold check sends, if it sends one. */
  function CommitFor(p: Params, groups: nat, digest: Option<string>, rv: RoundView): Option<Claim>
    requires p.m > 0
  {
    if rv.commitSent || digest.None? || VotesFor(p, rv.ledger, digest.value, groups) < p.VoteThreshold() then None
    else Some(ClaimOf(rv.ledger, p, groups, digest.value))
  }

  /** Who receives out-prepare messages: a node, in a view, with the digest of its round, if it knows it. */
  datatype Receiver = Receiver(id: string, view: int, digest: Option<string>)

  /** A message that counts: it reaches a representative in its view, from a node with a role. */
  predicate Counts(r: Receiver, ms: Membership, msg: OutPrepare)
    requires |ms.representatives| == |ms.groups|
  {
    IsRepresentative(ms, r.id) && msg.view == r.view && Contribution(ms, msg).Some?
  }

  /** The COMMIT with which a message, judged by the grouping `ms`, is answered. */
  function Answer(p: Params, r: Receiver, filed: Membership, ms: Membership, rv: RoundView, msg: OutPrepare): Option<Claim>
    requires p.m > 0 && |ms.representatives| == |ms.groups| == |filed.groups|
  {
    if Counts(r, ms, msg) then CommitFor(p, |ms.groups|, r.digest, rv.(ledger := Taken(filed, ms, rv.ledger, msg))) else None
  }

  /** The round after the message. */
  function Heard(p: Params, r: Receiver, filed: Membership, ms: Membership, rv: RoundView, msg: OutPrepare): RoundView
    requires p.m > 0 && |ms.representatives| == |ms.groups| == |filed.groups|
  {
    if Counts(r, ms, msg) then
      RoundView(Taken(filed, ms, rv.ledger, msg), rv.commitSent || Answer(p, r, filed, ms, rv, msg).Some?)
    else rv
  }

  class Representative {
    const id: string
    const params: Params
    const ledger: VoteLedger
    var view: int
    var membership: Membership
    var digest: Option<string>
    var commitSent: bool

    ghost predicate Valid()
      reads this, ledger
    {
      && params.m > 0 && ledger.params == params && |membership.representatives| == |membership.groups|
      && |membership.groups| == |ledger.membership.groups|
    }

    function Round(): RoundView
      reads this, ledger
    {
      RoundView(ledger.View(), commitSent)
    }

    /** The round's ledger keeps the grouping of the moment it was created. */
    constructor (id: string, params: Params, view: int, membership: Membership, digest: Option<string>)
      requires params.m > 0 && |membership.representatives| == |membership.groups|
      ensures Valid() && Round() == RoundView(NO_VOTES, false) && fresh(ledger) && ledger.membership == membership
      ensures this.membership == membership && this.view == view && this.digest == digest && this.id == id
    {
      this.id, this.params, this.view, this.membership, this.digest, commitSent := id, params, view, membership, digest, false;
      ledger := new VoteLedger(params, membership);
    }

    method CheckVoteThreshold() returns (commit: Option<Claim>)
      requires Valid()
      modifies this`commitSent
      ensures Valid() && commit == CommitFor(params, |membership.groups|, digest, old(Round()))
      ensures Round() == old(Round()).(commitSent := old(commitSent) || commit.Some?)
    {
      commit := None;
      if commitSent || digest.None? {
        return;
      }
      var votes := ledger.CountVotes(digest.value);
      if votes >= params.VoteThreshold() {
        commitSent := true;
        var proof := ledger.Proof(digest.value);
        commit := Some(Claim(digest.value, proof, votes));
      }
    }

    method Contribute(msg: OutPrepare) returns (counted: bool)
      requires Valid()
      modifies ledger
      ensures Valid() && commitSent == old(commitSent)
      ensures counted == Contribution(membership, msg).Some?
      ensures ledger.View() == Taken(ledger.membership, membership, old(ledger.View()), msg)
    {
      var g := GroupOf(membership, msg.sender);
      if g == -1 {
        if msg.sender !in membership.ungrouped {
          return false;
        }
        ledger.AddUngrouped(msg.sender, msg.digest, msg.sigs);
      } else if msg.sender == membership.representatives[g] {
        var f := ledger.AddGroupAggregate(g, msg.digest, msg.sigs);
      } else {
        ledger.AddGroupIndividual(g, msg.digest, msg.sigs);
      }
      return true;
    }

    method OnOutPrepare(msg: OutPrepare) returns (commit: Option<Claim>)
      requires Valid()
      modifies this`commitSent, ledger
      ensures Valid()
      ensures commit == Answer(params, Receiver(id, view, digest), ledger.membership, membership, old(Round()), msg)
      ensures Round() == Heard(params, Receiver(id, view, digest), ledger.membership, membership, old(Round()), msg)
    {
      commit := None;
      if !IsRepresentative(membership, id) || msg.view != view {
        return;
      }
      var counted := Contribute(msg);
      if counted {
        commit := CheckVoteThreshold();
      }
    }
  }

  // ---------- the primary and the replicas ----------

  function ValidSigs(sigs: set<string>, digest: string): set<string> {
    set sig | sig in sigs && SigValid(sig, digest)
  }

  function Signatories(sigs: set<string>, digest: string): set<string> {
    set sig | sig in sigs && SigValid(sig, digest) :: SigSigner(sig)
  }

  /** The primary counts distinct valid signatures. */
  predicate PrimaryAccepts(p: Params, c: Claim)
    requires p.m > 0
  {
    c.votes >= p.VoteThreshold() && |ValidSigs(c.sigs, c.digest)| >= p.ProofQuorum()
  }

  /** A replica counts distinct signers. */
  predicate ReplicaAccepts(p: Params, c: Claim)
    requires p.m > 0
  {
    c.votes >= p.VoteThreshold() && |Signatories(ValidSigs(c.sigs, c.digest), c.digest)| >= p.ProofQuorum()
  }

  class PrimaryRound {
    const params: Params
    var commitProofs: map<string, set<string>>
    var preprepare2Sent: bool

    constructor (params: Params)
      ensures this.params == params && commitProofs == map[] && !preprepare2Sent
    {
      this.params, commitProofs, preprepare2Sent := params, map[], false;
    }

    /** At most one claim per round is forwarded, and only one that passes the primary's checks. */
    method OnCommit(c: Claim) returns (forwarded: Option<Claim>)
      requires params.m > 0
      modifies this
      ensures forwarded.Some? <==> !old(preprepare2Sent) && PrimaryAccepts(params, c)
      ensures forwarded.Some? ==> forwarded.value == c.(sigs := ValidSigs(c.sigs, c.digest))
      ensures preprepare2Sent == (old(preprepare2Sent) || forwarded.Some?)
      ensures commitProofs == if forwarded.Some? then old(commitProofs)[c.digest := forwarded.value.sigs] else old(commitProofs)
    {
      forwarded := None;
      if preprepare2Sent || c.votes < params.VoteThreshold() {
        return;
      }
      var valid := ValidSigs(c.sigs, c.digest);
      if |valid| < params.ProofQuorum() {
        return;
      }
      commitProofs := commitProofs[c.digest := valid];
      preprepare2Sent := true;
      forwarded := Some(Claim(c.digest, valid, c.votes));
    }
  }

  // ---------- the checks agree ----------

  /** Distinct signatures of one digest have distinct signers. */
  lemma {:induction false} AsManySignersAsSignatures(sigs: set<string>, digest: string)
    requires forall sig :: sig in sigs ==> SigValid(sig, digest)
    ensures |Signatories(sigs, digest)| == |sigs|
    decreases |sigs|
  {
    if sigs == {} {
      assert Signatories(sigs, digest) == {};
    } else {
      var sig :| sig in sigs;
      var rest := sigs - {sig};
      AsManySignersAsSignatures(rest, digest);
      assert Signatories(sigs, digest) == Signatories(rest, digest) + {SigSigner(sig)};
      if SigSigner(sig) in Signatories(rest, digest) {
        var other :| other in rest && SigValid(other, digest) && SigSigner(other) == SigSigner(sig);
        ValidIsSigned(sig, digest);
        ValidIsSigned(other, digest);
      }
    }
  }

  /** Whatever claim the primary forwards passes the check of every replica. */
  lemma ForwardedIsAccepted(p: Params, c: Claim)
    requires p.m > 0 && PrimaryAccepts(p, c)
    ensures ReplicaAccepts(p, c.(sigs := ValidSigs(c.sigs, c.digest)))
  {
    var valid := ValidSigs(c.sigs, c.digest);
    assert ValidSigs(valid, c.digest) == valid;
    AsManySignersAsSignatures(valid, c.digest);
  }

  lemma SignerIsMember(ms: Membership, l: Ledger, digest: string, x: string) returns (g: int)
    requires LedgerOk(ms, l) && x in GroupSigners(l, digest)
    ensures 0 <= g < |ms.groups| && x in ms.groups[g] && '~' !in x
  {
    var k :| k in l.signers && k.1 == digest && x in l.signers[k];
    g := k.0;
    assert (g, digest) in l.signers;
  }

  lemma ProofIsValid(ms: Membership, l: Ledger, digest: string)
    requires LedgerOk(ms, l)
    ensures ValidSigs(ProofSignatures(l, digest), digest) == ProofSignatures(l, digest)
    ensures Signatories(ProofSignatures(l, digest), digest) == ProofSigners(l, digest)
    ensures |ProofSignatures(l, digest)| == |ProofSigners(l, digest)|
  {
    var sigs := ProofSignatures(l, digest);
    forall x | x in ProofSigners(l, digest) ensures SigValid(Sign(x, digest), digest) && SigSigner(Sign(x, digest)) == x {
      if x in GroupSigners(l, digest) {
        var g := SignerIsMember(ms, l, digest, x);
      }
      SignRoundTrip(x, digest);
    }
    forall x | x in ProofSigners(l, digest) ensures x in Signatories(sigs, digest) {
      assert Sign(x, digest) in sigs;
    }
    AsManySignersAsSignatures(sigs, digest);
  }

  // ---------- honest commits ----------

  function Contributions(ms: Membership, msgs: seq<OutPrepare>): seq<Addition>
    requires |ms.representatives| == |ms.groups|
  {
    if msgs == [] then []
    else
      var a := Contribution(ms, msgs[|msgs| - 1]);
      Contributions(ms, msgs[..|msgs| - 1]) + if a.Some? then [a.value] else []
  }

  lemma ContributionFits(ms: Membership, msg: OutPrepare)
    requires |ms.representatives| == |ms.groups| && Contribution(ms, msg).Some?
    ensures var a := Contribution(ms, msg).value;
            if a.FromUngrouped? then a.node in ms.ungrouped else 0 <= a.group < |ms.groups|
  {
    GroupFromFinds(ms, msg.sender, 0);
  }

  ghost predicate RolesChecked(ms: Membership, additions: seq<Addition>) {
    Addable(ms, additions) && forall i :: 0 <= i < |additions| && additions[i].FromUngrouped? ==> additions[i].node in ms.ungrouped
  }

  lemma {:induction false} ContributionsChecked(ms: Membership, msgs: seq<OutPrepare>)
    requires |ms.representatives| == |ms.groups|
    ensures RolesChecked(ms, Contributions(ms, msgs))
  {
    if msgs != [] {
      ContributionsChecked(ms, msgs[..|msgs| - 1]);
      if Contribution(ms, msgs[|msgs| - 1]).Some? {
        ContributionFits(ms, msgs[|msgs| - 1]);
      }
    }
  }

  lemma {:induction false} UngroupedStayUngrouped(ms: Membership, additions: seq<Addition>, digest: string)
    requires RolesChecked(ms, additions)
    ensures forall x :: x in UngroupedOf(AddedAll(ms, additions), digest) ==> x in ms.ungrouped
  {
    if additions != [] {
      var init := additions[..|additions| - 1];
      UngroupedStayUngrouped(ms, init, digest);
    }
  }

  lemma NobodyCountedTwice(ms: Membership, additions: seq<Addition>, digest: string, m: nat, r: nat)
    requires Partitioned(ms, m, r) && RolesChecked(ms, additions)
    ensures CountedTwice(AddedAll(ms, additions), digest) == {}
  {
    var l := AddedAll(ms, additions);
    AdditionsKeep(ms, additions);
    UngroupedStayUngrouped(ms, additions, digest);
    forall x | x in GroupSigners(l, digest) ensures x !in UngroupedOf(l, digest) {
      var g := SignerIsMember(ms, l, digest, x);
    }
  }

  /** The ledger that a round's messages fill under one grouping. */
  function LedgerFrom(ms: Membership, msgs: seq<OutPrepare>): Ledger
    requires |ms.representatives| == |ms.groups|
  {
    ContributionsChecked(ms, msgs);
    AddedAll(ms, Contributions(ms, msgs))
  }

  /** A ledger filled under one grouping: the COMMIT it leads to passes the checks of the primary, and what the
      primary forwards passes those of every replica. */
  lemma HonestCommitPasses(p: Params, ms: Membership, msgs: seq<OutPrepare>, digest: string)
    requires p.Valid() && Partitioned(ms, p.m, p.R()) && |ms.representatives| == |ms.groups|
    requires VotesFor(p, LedgerFrom(ms, msgs), digest, p.R()) >= p.VoteThreshold()
    ensures var c := ClaimOf(LedgerFrom(ms, msgs), p, p.R(), digest);
            PrimaryAccepts(p, c) && ReplicaAccepts(p, c) && ReplicaAccepts(p, c.(sigs := ValidSigs(c.sigs, digest)))
  {
    ContributionsChecked(ms, msgs);
    var additions := Contributions(ms, msgs);
    var l := AddedAll(ms, additions);
    AdditionsKeep(ms, additions);
    NobodyCountedTwice(ms, additions, digest, p.m, p.R());
    ThresholdImpliesProof(p, ms, additions, digest);
    ProofIsValid(ms, l, digest);
  }
}
