/** The vote ledger of NBFT: a group whose representative forwarded m - E valid signatures counts m votes, any
    other group its distinct signers, an ungrouped node one vote. */
module NbftLedger {
  import opened Quorums
  import opened NbftRing

  /** What a representative has collected: the best aggregate and the signers per group and digest, and the
      ungrouped voters per digest. */
  datatype Ledger = Ledger(best: map<(int, string), int>, signers: map<(int, string), set<string>>, ungrouped: map<string, set<string>>)

  const NO_VOTES: Ledger := Ledger(map[], map[], map[])

  function Best(l: Ledger, g: int, digest: string): int {
    if (g, digest) in l.best then l.best[(g, digest)] else 0
  }

  function SignersOf(l: Ledger, g: int, digest: string): set<string> {
    if (g, digest) in l.signers then l.signers[(g, digest)] else {}
  }

  function UngroupedOf(l: Ledger, digest: string): set<string> {
    if digest in l.ungrouped then l.ungrouped[digest] else {}
  }

  /** The members of the group among the signers of valid signatures. */
  function ValidSigners(members: seq<string>, digest: string, sigs: set<string>): set<string> {
    set sig | sig in sigs && SigValid(sig, digest) && SigSigner(sig) in members :: SigSigner(sig)
  }

  function Max(a: int, b: int): int {
    if a >= b then a else b
  }

  function Individual(l: Ledger, members: seq<string>, g: int, digest: string, sigs: set<string>): Ledger {
    l.(signers := l.signers[(g, digest) := SignersOf(l, g, digest) + ValidSigners(members, digest, sigs)])
  }

  function Aggregate(l: Ledger, members: seq<string>, g: int, digest: string, sigs: set<string>): Ledger {
    Individual(l, members, g, digest, sigs).(
      best := l.best[(g, digest) := Max(Best(l, g, digest), |ValidSigners(members, digest, sigs)|)])
  }

  predicate SignsItself(node: string, digest: string, sigs: set<string>) {
    exists sig :: sig in sigs && SigValid(sig, digest) && SigSigner(sig) == node
  }

  function Single(l: Ledger, node: string, digest: string, sigs: set<string>): Ledger {
    if SignsItself(node, digest, sigs) then l.(ungrouped := l.ungrouped[digest := UngroupedOf(l, digest) + {node}]) else l
  }

  function GroupVotes(p: Params, l: Ledger, g: int, digest: string): int
    requires p.m > 0
  {
    if Best(l, g, digest) >= p.FullVoteQuorum() then p.m else |SignersOf(l, g, digest)|
  }

  /** The votes of the first k groups. */
  function VotesUpTo(p: Params, l: Ledger, digest: string, k: nat): int
    requires p.m > 0
  {
    if k == 0 then 0 else VotesUpTo(p, l, digest, k - 1) + GroupVotes(p, l, k - 1, digest)
  }

  function VotesFor(p: Params, l: Ledger, digest: string, groups: nat): int
    requires p.m > 0
  {
    VotesUpTo(p, l, digest, groups) + |UngroupedOf(l, digest)|
  }

  function GroupSigners(l: Ledger, digest: string): set<string> {
    set k, x | k in l.signers && k.1 == digest && x in l.signers[k] :: x
  }

  function ProofSigners(l: Ledger, digest: string): set<string> {
    GroupSigners(l, digest) + UngroupedOf(l, digest)
  }

  function ProofSignatures(l: Ledger, digest: string): set<string> {
    set x | x in ProofSigners(l, digest) :: Sign(x, digest)
  }

  class VoteLedger {
    const params: Params
    const membership: Membership
    var aggregateBest: map<(int, string), int>
    var groupSigners: map<(int, string), set<string>>
    var ungrouped: map<string, set<string>>

    function View(): Ledger
      reads this
    {
      Ledger(aggregateBest, groupSigners, ungrouped)
    }

    constructor (params: Params, membership: Membership)
      ensures this.params == params && this.membership == membership && View() == NO_VOTES
    {
      this.params, this.membership := params, membership;
      aggregateBest, groupSigners, ungrouped := map[], map[], map[];
    }

    method AddGroupIndividual(g: int, digest: string, sigs: set<string>)
      requires 0 <= g < |membership.groups|
      modifies this`groupSigners
      ensures View() == Individual(old(View()), membership.groups[g], g, digest, sigs)
    {
      var signers := ValidSigners(membership.groups[g], digest, sigs);
      var seen := if (g, digest) in groupSigners then groupSigners[(g, digest)] else {};
      groupSigners := groupSigners[(g, digest) := seen + signers];
    }

    method AddGroupAggregate(g: int, digest: string, sigs: set<string>) returns (f: int)
      requires 0 <= g < |membership.groups|
      modifies this`groupSigners, this`aggregateBest
      ensures View() == Aggregate(old(View()), membership.groups[g], g, digest, sigs)
      ensures f == |ValidSigners(membership.groups[g], digest, sigs)|
    {
      var signers := ValidSigners(membership.groups[g], digest, sigs);
      var seen := if (g, digest) in groupSigners then groupSigners[(g, digest)] else {};
      groupSigners := groupSigners[(g, digest) := seen + signers];
      f := |signers|;
      var best := if (g, digest) in aggregateBest then aggregateBest[(g, digest)] else 0;
      aggregateBest := aggregateBest[(g, digest) := Max(best, f)];
    }

    method AddUngrouped(node: string, digest: string, sigs: set<string>)
      modifies this`ungrouped
      ensures View() == Single(old(View()), node, digest, sigs)
    {
      if exists sig :: sig in sigs && SigValid(sig, digest) && SigSigner(sig) == node {
        var seen := if digest in ungrouped then ungrouped[digest] else {};
        ungrouped := ungrouped[digest := seen + {node}];
      }
    }

    method CountVotes(digest: string) returns (votes: int)
      requires params.m > 0
      ensures votes == VotesFor(params, View(), digest, |membership.groups|)
    {
      votes := 0;
      var g := 0;
      while g < |membership.groups|
        invariant 0 <= g <= |membership.groups|
        invariant votes == VotesUpTo(params, View(), digest, g)
      {
        votes := votes + GroupVotes(params, View(), g, digest);
        g := g + 1;
      }
      votes := votes + if digest in ungrouped then |ungrouped[digest]| else 0;
    }

    method Proof(digest: string) returns (sigs: set<string>)
      ensures sigs == ProofSignatures(View(), digest)
    {
      var signers: set<string> := {};
      var todo := groupSigners.Keys;
      while todo != {}
        invariant todo <= groupSigners.Keys
        invariant signers == set k, x | k in groupSigners && k !in todo && k.1 == digest && x in groupSigners[k] :: x
      {
        assert (forall k :: k !in todo) ==> todo == {};
        var k :| k in todo;
        if k.1 == digest {
          signers := signers + groupSigners[k];
        }
        todo := todo - {k};
      }
      assert signers == GroupSigners(View(), digest);
      if digest in ungrouped {
        signers := signers + ungrouped[digest];
      }
      sigs := set x | x in signers :: Sign(x, digest);
    }
  }

  // ---------- what every ledger keeps ----------

  /** One addition, as a representative makes it. */
  datatype Addition =
    | FromRepresentative(group: int, digest: string, sigs: set<string>)
    | FromMember(group: int, digest: string, sigs: set<string>)
    | FromUngrouped(node: string, digest: string, sigs: set<string>)

  function Added(ms: Membership, l: Ledger, a: Addition): Ledger
    requires !a.FromUngrouped? ==> 0 <= a.group < |ms.groups|
  {
    match a
    case FromRepresentative(g, digest, sigs) => Aggregate(l, ms.groups[g], g, digest, sigs)
    case FromMember(g, digest, sigs) => Individual(l, ms.groups[g], g, digest, sigs)
    case FromUngrouped(node, digest, sigs) => Single(l, node, digest, sigs)
  }

  ghost predicate Addable(ms: Membership, additions: seq<Addition>) {
    forall i :: 0 <= i < |additions| && !additions[i].FromUngrouped? ==> 0 <= additions[i].group < |ms.groups|
  }

  function AddedAll(ms: Membership, additions: seq<Addition>): Ledger
    requires Addable(ms, additions)
  {
    if additions == [] then NO_VOTES
    else Added(ms, AddedAll(ms, additions[..|additions| - 1]), additions[|additions| - 1])
  }

  /** Signers are members of their group, the best aggregate is among the signers seen, and no name holds a separator. */
  ghost predicate LedgerOk(ms: Membership, l: Ledger) {
    && (forall g, d :: (g, d) in l.signers ==>
          && 0 <= g < |ms.groups|
          && forall x :: x in l.signers[(g, d)] ==> x in ms.groups[g] && '~' !in x)
    && (forall g, d :: Best(l, g, d) <= |SignersOf(l, g, d)|)
    && (forall d, x :: d in l.ungrouped && x in l.ungrouped[d] ==> '~' !in x)
  }

  lemma ValidSignersOk(members: seq<string>, digest: string, sigs: set<string>)
    ensures forall x :: x in ValidSigners(members, digest, sigs) ==> x in members && '~' !in x
  {
    forall x | x in ValidSigners(members, digest, sigs) ensures x in members && '~' !in x {
      var sig :| sig in sigs && SigSigner(sig) == x && SigSigner(sig) in members;
      SignerIsPrefix(sig);
    }
  }

  lemma SubsetCount(a: set<string>, b: set<string>)
    ensures |a| <= |a + b| && |b| <= |a + b|
  {
    SubsetSize(a, a + b);
    SubsetSize(b, a + b);
  }

  lemma SingleKeeps(ms: Membership, l: Ledger, node: string, digest: string, sigs: set<string>)
    requires LedgerOk(ms, l)
    ensures LedgerOk(ms, Single(l, node, digest, sigs))
  {
    if SignsItself(node, digest, sigs) {
      var sig :| sig in sigs && SigValid(sig, digest) && SigSigner(sig) == node;
      SignerIsPrefix(sig);
      var l' := Single(l, node, digest, sigs);
      forall g, d ensures Best(l', g, d) <= |SignersOf(l', g, d)| {
        assert Best(l', g, d) == Best(l, g, d) && SignersOf(l', g, d) == SignersOf(l, g, d);
      }
      forall d, x | d in l'.ungrouped && x in l'.ungrouped[d] ensures '~' !in x {
        assert x == node || x in UngroupedOf(l, d);
      }
    }
  }

  lemma IndividualKeeps(ms: Membership, l: Ledger, g: int, digest: string, sigs: set<string>)
    requires LedgerOk(ms, l) && 0 <= g < |ms.groups|
    ensures LedgerOk(ms, Individual(l, ms.groups[g], g, digest, sigs))
  {
    var l' := Individual(l, ms.groups[g], g, digest, sigs);
    ValidSignersOk(ms.groups[g], digest, sigs);
    SubsetCount(SignersOf(l, g, digest), ValidSigners(ms.groups[g], digest, sigs));
    forall h, d ensures Best(l', h, d) <= |SignersOf(l', h, d)| {
      assert Best(l', h, d) == Best(l, h, d) <= |SignersOf(l, h, d)|;
      if (h, d) != (g, digest) {
        assert SignersOf(l', h, d) == SignersOf(l, h, d);
      }
    }
  }

  lemma AggregateKeeps(ms: Membership, l: Ledger, g: int, digest: string, sigs: set<string>)
    requires LedgerOk(ms, l) && 0 <= g < |ms.groups|
    ensures LedgerOk(ms, Aggregate(l, ms.groups[g], g, digest, sigs))
  {
    var l1 := Individual(l, ms.groups[g], g, digest, sigs);
    var l' := Aggregate(l, ms.groups[g], g, digest, sigs);
    IndividualKeeps(ms, l, g, digest, sigs);
    SubsetCount(SignersOf(l, g, digest), ValidSigners(ms.groups[g], digest, sigs));
    forall h, d ensures Best(l', h, d) <= |SignersOf(l', h, d)| {
      assert SignersOf(l', h, d) == SignersOf(l1, h, d);
      assert Best(l1, h, d) <= |SignersOf(l1, h, d)|;
      if (h, d) != (g, digest) {
        assert Best(l', h, d) == Best(l1, h, d);
      }
    }
  }

  lemma AddedKeeps(ms: Membership, l: Ledger, a: Addition)
    requires LedgerOk(ms, l) && (!a.FromUngrouped? ==> 0 <= a.group < |ms.groups|)
    ensures LedgerOk(ms, Added(ms, l, a))
  {
    match a {
      case FromRepresentative(g, digest, sigs) => AggregateKeeps(ms, l, g, digest, sigs);
      case FromMember(g, digest, sigs) => IndividualKeeps(ms, l, g, digest, sigs);
      case FromUngrouped(node, digest, sigs) => SingleKeeps(ms, l, node, digest, sigs);
    }
  }

  lemma {:induction false} AdditionsKeep(ms: Membership, additions: seq<Addition>)
    requires Addable(ms, additions)
    ensures LedgerOk(ms, AddedAll(ms, additions))
  {
    if additions != [] {
      AdditionsKeep(ms, additions[..|additions| - 1]);
      AddedKeeps(ms, AddedAll(ms, additions[..|additions| - 1]), additions[|additions| - 1]);
    }
  }

  // ---------- from votes to signers ----------

  /** How many of the first k groups count as full. */
  function FullGroups(p: Params, l: Ledger, digest: string, k: nat): nat
    requires p.m > 0
  {
    if k == 0 then 0
    else FullGroups(p, l, digest, k - 1) + if Best(l, k - 1, digest) >= p.FullVoteQuorum() then 1 else 0
  }

  /** The signers of the groups, among the first k, that do not count as full. */
  function RestSigners(p: Params, l: Ledger, digest: string, k: nat): nat
    requires p.m > 0
  {
    if k == 0 then 0
    else RestSigners(p, l, digest, k - 1) + if Best(l, k - 1, digest) >= p.FullVoteQuorum() then 0 else |SignersOf(l, k - 1, digest)|
  }

  ghost function UnionUpTo(l: Ledger, digest: string, k: nat): set<string> {
    if k == 0 then {} else UnionUpTo(l, digest, k - 1) + SignersOf(l, k - 1, digest)
  }

  /** An amount q for each full group among the first k. */
  function PerFullGroup(p: Params, l: Ledger, digest: string, k: nat, q: int): int
    requires p.m > 0
  {
    if k == 0 then 0
    else PerFullGroup(p, l, digest, k - 1, q) + if Best(l, k - 1, digest) >= p.FullVoteQuorum() then q else 0
  }

  lemma {:induction false} PerFullGroupIsProduct(p: Params, l: Ledger, digest: string, k: nat, q: int)
    requires p.m > 0
    ensures PerFullGroup(p, l, digest, k, q) == FullGroups(p, l, digest, k) * q
  {
    if k > 0 {
      PerFullGroupIsProduct(p, l, digest, k - 1, q);
      OneMore(FullGroups(p, l, digest, k - 1), q);
    }
  }

  lemma OneMore(f: int, q: int)
    ensures (f + 1) * q == f * q + q
  {
  }

  lemma {:induction false} VotesSplit(p: Params, l: Ledger, digest: string, k: nat)
    requires p.m > 0
    ensures VotesUpTo(p, l, digest, k) == PerFullGroup(p, l, digest, k, p.m) + RestSigners(p, l, digest, k)
  {
    if k > 0 {
      VotesSplit(p, l, digest, k - 1);
    }
  }

  lemma {:induction false} UnionWithin(ms: Membership, l: Ledger, digest: string, k: nat, x: string)
    requires LedgerOk(ms, l) && k <= |ms.groups| && x in UnionUpTo(l, digest, k)
    ensures exists g :: 0 <= g < k && x in ms.groups[g]
  {
    if x in SignersOf(l, k - 1, digest) {
      assert x in ms.groups[k - 1];
    } else {
      UnionWithin(ms, l, digest, k - 1, x);
    }
  }

  lemma GroupsApart(ms: Membership, l: Ledger, digest: string, k: nat)
    requires LedgerOk(ms, l) && k < |ms.groups|
    requires forall g, h, x :: 0 <= g < h < |ms.groups| && x in ms.groups[g] ==> x !in ms.groups[h]
    ensures UnionUpTo(l, digest, k) * SignersOf(l, k, digest) == {}
  {
    forall x | x in UnionUpTo(l, digest, k) ensures x !in SignersOf(l, k, digest) {
      UnionWithin(ms, l, digest, k, x);
    }
  }

  /** The groups are disjoint, so their signers add up. */
  lemma {:induction false} UnionCounts(p: Params, ms: Membership, l: Ledger, digest: string, k: nat)
    requires p.m > 0 && LedgerOk(ms, l) && k <= |ms.groups|
    requires forall g, h, x :: 0 <= g < h < |ms.groups| && x in ms.groups[g] ==> x !in ms.groups[h]
    ensures |UnionUpTo(l, digest, k)| >= PerFullGroup(p, l, digest, k, p.FullVoteQuorum()) + RestSigners(p, l, digest, k)
  {
    if k > 0 {
      UnionCounts(p, ms, l, digest, k - 1);
      UnionGrows(ms, l, digest, k - 1);
    }
  }

  lemma UnionGrows(ms: Membership, l: Ledger, digest: string, k: nat)
    requires LedgerOk(ms, l) && k < |ms.groups|
    requires forall g, h, x :: 0 <= g < h < |ms.groups| && x in ms.groups[g] ==> x !in ms.groups[h]
    ensures |UnionUpTo(l, digest, k + 1)| == |UnionUpTo(l, digest, k)| + |SignersOf(l, k, digest)|
    ensures Best(l, k, digest) <= |SignersOf(l, k, digest)|
  {
    GroupsApart(ms, l, digest, k);
  }

  lemma {:induction false} UnionIsGroupSigners(ms: Membership, l: Ledger, digest: string, k: nat)
    requires LedgerOk(ms, l) && k <= |ms.groups|
    ensures UnionUpTo(l, digest, k) <= GroupSigners(l, digest)
  {
    if k > 0 {
      UnionIsGroupSigners(ms, l, digest, k - 1);
      forall x | x in SignersOf(l, k - 1, digest) ensures x in GroupSigners(l, digest) {
        assert (k - 1, digest) in l.signers && (k - 1, digest).1 == digest;
      }
    }
  }

  /** Nodes counted both as a group's signer and as ungrouped. */
  function CountedTwice(l: Ledger, digest: string): set<string> {
    GroupSigners(l, digest) * UngroupedOf(l, digest)
  }

  lemma Product(a: int, b: int, m: int, e: int)
    requires a >= b
    ensures m >= 0 ==> a * m >= b * m
    ensures (a - b) * m == a * m - b * m && a * (m - e) == a * m - a * e
  {
    if m >= 0 {
      assert (a - b) * m >= 0;
    }
  }

  /** Enough votes mean enough distinct signers, as long as at most E nodes were counted twice. */
  lemma ThresholdImpliesProof(p: Params, ms: Membership, additions: seq<Addition>, digest: string)
    requires p.Valid() && Partitioned(ms, p.m, p.R()) && Addable(ms, additions)
    requires var l := AddedAll(ms, additions);
             |CountedTwice(l, digest)| <= p.E() && VotesFor(p, l, digest, p.R()) >= p.VoteThreshold()
    ensures |ProofSigners(AddedAll(ms, additions), digest)| >= p.ProofQuorum()
  {
    var l, r := AddedAll(ms, additions), p.R();
    AdditionsKeep(ms, additions);
    VotesSplit(p, l, digest, r);
    UnionCounts(p, ms, l, digest, r);
    PerFullGroupIsProduct(p, l, digest, r, p.m);
    PerFullGroupIsProduct(p, l, digest, r, p.FullVoteQuorum());
    UnionIsGroupSigners(ms, l, digest, r);
    var grouped, single := GroupSigners(l, digest), UngroupedOf(l, digest);
    SubsetSize(UnionUpTo(l, digest, r), grouped);
    assert |grouped + single| == |grouped| + |single| - |grouped * single|;
    SubsetSize(grouped * single, single);
    EnoughSigners(p, FullGroups(p, l, digest, r), RestSigners(p, l, digest, r), |single|, |grouped * single|, |grouped|);
  }

  /** The arithmetic: f full groups, `rest` other signers, `single` ungrouped voters, `twice` of them counted twice. */
  lemma EnoughSigners(p: Params, f: nat, rest: nat, single: nat, twice: nat, grouped: nat)
    requires p.Valid() && twice <= single && twice <= p.E()
    requires f * p.m + rest + single >= p.VoteThreshold() && grouped >= f * p.FullVoteQuorum() + rest
    ensures grouped + single - twice >= p.ProofQuorum()
  {
    var need, m, e := p.R() - p.W(), p.m, p.E();
    if f >= need {
      Product(f, need, m - e, 0);
    } else {
      var missing := need - f;
      Product(need, f, m, e);
      Product(need, f, m - e, 0);
      Product(missing, 1, e, 0);
      Product(missing, 0, m, e);
    }
  }
}
