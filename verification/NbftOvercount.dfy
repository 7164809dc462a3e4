/** A round's ledger keeps the grouping of the moment it was created, while messages are judged by the grouping of the
    moment they arrive. After a regrouping, a node that the ledger files in a group may be judged ungrouped and be
    counted twice. The link from votes to proof holds exactly as long as the groupings move at most E nodes so. */
module NbftOvercount {
  import opened Quorums
  import opened NbftRing
  import opened NbftLedger
  import opened NbftCommit

  /** A message and the grouping by which it was judged. */
  datatype Judged = Judged(ms: Membership, msg: OutPrepare)

  /** A grouping for the settings, with a representative in each group. */
  ghost predicate Grouping(p: Params, ms: Membership)
    requires p.Valid()
  {
    && Partitioned(ms, p.m, p.R()) && |ms.representatives| == p.R()
    && forall g :: 0 <= g < p.R() ==> ms.representatives[g] in ms.groups[g]
  }

  ghost predicate Fits(filed: Membership, judged: seq<Judged>) {
    forall k :: 0 <= k < |judged| ==> |judged[k].ms.representatives| == |judged[k].ms.groups| == |filed.groups|
  }

  /** The ledger, filed by `filed`, after the messages. */
  function LedgerOf(filed: Membership, judged: seq<Judged>): Ledger
    requires Fits(filed, judged)
  {
    if judged == [] then NO_VOTES
    else
      var last := judged[|judged| - 1];
      Taken(filed, last.ms, LedgerOf(filed, judged[..|judged| - 1]), last.msg)
  }

  lemma LedgerOfLonger(filed: Membership, judged: seq<Judged>, j: Judged)
    requires Fits(filed, judged) && |j.ms.representatives| == |j.ms.groups| == |filed.groups|
    ensures Fits(filed, judged + [j]) && LedgerOf(filed, judged + [j]) == Taken(filed, j.ms, LedgerOf(filed, judged), j.msg)
  {
    assert (judged + [j])[..|judged|] == judged;
  }

  /** The same ledger as a sequence of additions. */
  lemma {:induction false} JudgedAdditions(filed: Membership, judged: seq<Judged>) returns (additions: seq<Addition>)
    requires Fits(filed, judged)
    ensures Addable(filed, additions) && AddedAll(filed, additions) == LedgerOf(filed, judged)
  {
    additions := [];
    if judged != [] {
      var init, last := judged[..|judged| - 1], judged[|judged| - 1];
      var before := JudgedAdditions(filed, init);
      additions := before;
      if Contribution(last.ms, last.msg).Some? {
        ContributionFits(last.ms, last.msg);
        var a := Contribution(last.ms, last.msg).value;
        additions := before + [a];
        assert additions[..|before|] == before;
      }
    }
  }

  /** Whoever is counted as ungrouped was ungrouped in some grouping that judged a message. */
  lemma {:induction false} UngroupedWasJudged(filed: Membership, judged: seq<Judged>, digest: string, x: string)
    requires Fits(filed, judged) && x in UngroupedOf(LedgerOf(filed, judged), digest)
    ensures exists k :: 0 <= k < |judged| && x in judged[k].ms.ungrouped
  {
    var init, last := judged[..|judged| - 1], judged[|judged| - 1];
    if x in UngroupedOf(LedgerOf(filed, init), digest) {
      UngroupedWasJudged(filed, init, digest, x);
      var k :| 0 <= k < |init| && x in init[k].ms.ungrouped;
      assert judged[k] == init[k];
    } else {
      ContributionFits(last.ms, last.msg);
    }
  }

  // ---------- the condition ----------

  ghost predicate UngroupedLater(later: seq<Membership>, x: string) {
    exists k :: 0 <= k < |later| && x in later[k].ungrouped
  }

  /** The nodes that the ledger files in a group and a later grouping leaves ungrouped. */
  ghost function Moved(filed: Membership, later: seq<Membership>): set<string> {
    set g, x | 0 <= g < |filed.groups| && x in filed.groups[g] && UngroupedLater(later, x) :: x
  }

  ghost predicate JudgedBy(filed: Membership, later: seq<Membership>, judged: seq<Judged>) {
    forall k :: 0 <= k < |judged| ==> judged[k].ms == filed || judged[k].ms in later
  }

  ghost predicate Groupings(p: Params, filed: Membership, later: seq<Membership>)
    requires p.Valid()
  {
    Grouping(p, filed) && forall k :: 0 <= k < |later| ==> Grouping(p, later[k])
  }

  /** The ledger meets the vote threshold and yet has too few signers for the proof. */
  ghost predicate FallsShort(p: Params, l: Ledger, digest: string)
    requires p.Valid()
  {
    VotesFor(p, l, digest, p.R()) >= p.VoteThreshold() && |ProofSigners(l, digest)| < p.ProofQuorum()
  }

  // ---------- a receiver's round ----------

  /** The round of a receiver, whose ledger files by `filed`, after the messages. */
  function RoundAfter(p: Params, r: Receiver, filed: Membership, judged: seq<Judged>): RoundView
    requires p.m > 0 && Fits(filed, judged)
  {
    if judged == [] then RoundView(NO_VOTES, false)
    else
      var last := judged[|judged| - 1];
      Heard(p, r, filed, last.ms, RoundAfter(p, r, filed, judged[..|judged| - 1]), last.msg)
  }

  /** The COMMIT that leaves at message number k. */
  function CommitAt(p: Params, r: Receiver, filed: Membership, judged: seq<Judged>, k: nat): Option<Claim>
    requires p.m > 0 && Fits(filed, judged) && k < |judged|
  {
    Answer(p, r, filed, judged[k].ms, RoundAfter(p, r, filed, judged[..k]), judged[k].msg)
  }

  /** Whatever messages arrive, every COMMIT of the receiver passes the primary. */
  ghost predicate CommitsPass(p: Params, r: Receiver, filed: Membership, later: seq<Membership>)
    requires p.Valid()
  {
    forall judged, k :: JudgedBy(filed, later, judged) && Fits(filed, judged) && 0 <= k < |judged| ==>
      var commit := CommitAt(p, r, filed, judged, k);
      commit.Some? ==> PrimaryAccepts(p, commit.value)
  }

  /** The messages that count for the receiver. */
  function Counting(r: Receiver, filed: Membership, judged: seq<Judged>): seq<Judged>
    requires Fits(filed, judged)
  {
    if judged == [] then []
    else
      var init, last := judged[..|judged| - 1], judged[|judged| - 1];
      Counting(r, filed, init) + if Counts(r, last.ms, last.msg) then [last] else []
  }

  lemma {:induction false} CountingLedger(p: Params, r: Receiver, filed: Membership, later: seq<Membership>, judged: seq<Judged>)
    requires p.m > 0 && Fits(filed, judged) && JudgedBy(filed, later, judged)
    ensures var counting := Counting(r, filed, judged);
            && Fits(filed, counting) && JudgedBy(filed, later, counting)
            && RoundAfter(p, r, filed, judged).ledger == LedgerOf(filed, counting)
  {
    if judged != [] {
      var init, last := judged[..|judged| - 1], judged[|judged| - 1];
      CountingLedger(p, r, filed, later, init);
      if Counts(r, last.ms, last.msg) {
        LedgerOfLonger(filed, Counting(r, filed, init), last);
      } else {
        assert Counting(r, filed, judged) == Counting(r, filed, init);
      }
    }
  }

  lemma RoundAfterLonger(p: Params, r: Receiver, filed: Membership, judged: seq<Judged>, k: nat)
    requires p.m > 0 && Fits(filed, judged) && k < |judged|
    ensures RoundAfter(p, r, filed, judged[..k + 1]) == Heard(p, r, filed, judged[k].ms, RoundAfter(p, r, filed, judged[..k]), judged[k].msg)
  {
    assert judged[..k + 1][..k] == judged[..k];
  }

  /** A COMMIT carries the claim of the ledger at that moment. */
  lemma CommitIsClaim(p: Params, r: Receiver, filed: Membership, judged: seq<Judged>, k: nat)
    requires p.Valid() && Fits(filed, judged) && k < |judged| && |filed.groups| == p.R()
    ensures var commit := CommitAt(p, r, filed, judged, k);
            commit.Some? ==> && r.digest.Some? && VotesFor(p, RoundAfter(p, r, filed, judged[..k + 1]).ledger, r.digest.value, p.R()) >= p.VoteThreshold()
                             && commit.value == ClaimOf(RoundAfter(p, r, filed, judged[..k + 1]).ledger, p, p.R(), r.digest.value)
  {
    RoundAfterLonger(p, r, filed, judged, k);
  }

  /** The primary accepts exactly the claims of ledgers that do not fall short. */
  lemma ShortClaimRefused(p: Params, filed: Membership, judged: seq<Judged>, digest: string)
    requires p.Valid() && Fits(filed, judged) && VotesFor(p, LedgerOf(filed, judged), digest, p.R()) >= p.VoteThreshold()
    ensures PrimaryAccepts(p, ClaimOf(LedgerOf(filed, judged), p, p.R(), digest)) <==> !FallsShort(p, LedgerOf(filed, judged), digest)
  {
    var additions := JudgedAdditions(filed, judged);
    AdditionsKeep(filed, additions);
    ProofIsValid(filed, LedgerOf(filed, judged), digest);
  }

  // ---------- at most E moved nodes ----------

  lemma CountedTwiceIsMoved(p: Params, filed: Membership, later: seq<Membership>, judged: seq<Judged>, digest: string)
    requires p.Valid() && Groupings(p, filed, later) && JudgedBy(filed, later, judged) && Fits(filed, judged)
    ensures CountedTwice(LedgerOf(filed, judged), digest) <= Moved(filed, later)
  {
    var l := LedgerOf(filed, judged);
    var additions := JudgedAdditions(filed, judged);
    AdditionsKeep(filed, additions);
    forall x | x in CountedTwice(l, digest) ensures x in Moved(filed, later) {
      var g := SignerIsMember(filed, l, digest, x);
      UngroupedWasJudged(filed, judged, digest, x);
      var k :| 0 <= k < |judged| && x in judged[k].ms.ungrouped;
      assert judged[k].ms != filed;
      var i :| 0 <= i < |later| && later[i] == judged[k].ms;
      assert UngroupedLater(later, x);
    }
  }

  lemma FewMovedSuffice(p: Params, filed: Membership, later: seq<Membership>, judged: seq<Judged>, digest: string)
    requires p.Valid() && Groupings(p, filed, later) && |Moved(filed, later)| <= p.E() && JudgedBy(filed, later, judged) && Fits(filed, judged)
    ensures !FallsShort(p, LedgerOf(filed, judged), digest)
  {
    var l := LedgerOf(filed, judged);
    var additions := JudgedAdditions(filed, judged);
    CountedTwiceIsMoved(p, filed, later, judged, digest);
    SubsetSize(CountedTwice(l, digest), Moved(filed, later));
    if VotesFor(p, l, digest, p.R()) >= p.VoteThreshold() {
      ThresholdImpliesProof(p, filed, additions, digest);
    }
  }

  lemma FewMovedSuffices(p: Params, r: Receiver, filed: Membership, later: seq<Membership>)
    requires p.Valid() && Groupings(p, filed, later) && |Moved(filed, later)| <= p.E()
    ensures CommitsPass(p, r, filed, later)
  {
    forall judged, k | JudgedBy(filed, later, judged) && Fits(filed, judged) && 0 <= k < |judged|
      ensures var commit := CommitAt(p, r, filed, judged, k); commit.Some? ==> PrimaryAccepts(p, commit.value)
    {
      CommitIsClaim(p, r, filed, judged, k);
      CountingLedger(p, r, filed, later, judged[..k + 1]);
      var counting := Counting(r, filed, judged[..k + 1]);
      if CommitAt(p, r, filed, judged, k).Some? {
        FewMovedSuffice(p, filed, later, counting, r.digest.value);
        ShortClaimRefused(p, filed, counting, r.digest.value);
      }
    }
  }

  // ---------- choosing signers ----------

  /** A set between two others, of a given size. */
  lemma SetBetween(low: set<string>, high: set<string>, k: nat) returns (t: set<string>)
    requires low <= high && |low| <= k <= |high|
    ensures low <= t <= high && |t| == k
  {
    assert |high - low| == |high| - |low|;
    var more := SubsetOfSize(high - low, k - |low|);
    t := low + more;
    assert |low + more| == |low| + |more|;
  }

  /** The same in each of several places. */
  lemma {:induction false} SetsBetween(low: seq<set<string>>, high: seq<set<string>>, sizes: seq<nat>) returns (chosen: seq<set<string>>)
    requires |low| == |high| == |sizes|
    requires forall g :: 0 <= g < |low| ==> low[g] <= high[g] && |low[g]| <= sizes[g] <= |high[g]|
    ensures |chosen| == |low| && forall g :: 0 <= g < |low| ==> low[g] <= chosen[g] <= high[g] && |chosen[g]| == sizes[g]
  {
    chosen := [];
    if low != [] {
      var last := |low| - 1;
      chosen := SetsBetween(low[..last], high[..last], sizes[..last]);
      var t := SetBetween(low[last], high[last], sizes[last]);
      chosen := chosen + [t];
    }
  }

  ghost function Names(members: seq<string>): set<string> {
    set x | x in members
  }

  lemma {:induction false} NamesCount(members: seq<string>)
    requires Distinct(members)
    ensures |Names(members)| == |members|
  {
    if members == [] {
      assert Names(members) == {};
    } else {
      var init, last := members[..|members| - 1], members[|members| - 1];
      NamesCount(init);
      assert members == init + [last];
      assert Names(members) == Names(init) + {last};
      assert last !in Names(init);
    }
  }

  /** The sizes of the sets number a..b-1, added up. */
  ghost function SizeSum(sets: seq<set<string>>, a: nat, b: nat): nat
    requires a <= b <= |sets|
  {
    if a == b then 0 else SizeSum(sets, a, b - 1) + |sets[b - 1]|
  }

  ghost predicate Disjoint(sets: seq<set<string>>) {
    forall g, h :: 0 <= g < h < |sets| ==> sets[g] * sets[h] == {}
  }

  /** Disjoint subsets of a set are together no larger than the set. */
  lemma {:induction false} DisjointWithin(sets: seq<set<string>>, a: nat, b: nat, whole: set<string>)
    requires a <= b <= |sets| && Disjoint(sets) && forall g :: a <= g < b ==> sets[g] <= whole
    ensures SizeSum(sets, a, b) <= |whole|
    decreases b
  {
    if a < b {
      var rest := whole - sets[b - 1];
      forall g, x | a <= g < b - 1 && x in sets[g] ensures x in rest {
        assert sets[g] * sets[b - 1] == {};
        assert x !in sets[g] * sets[b - 1];
      }
      DisjointWithin(sets, a, b - 1, rest);
      assert |rest| == |whole| - |sets[b - 1]|;
    }
  }

  // ---------- filling the ledger ----------

  ghost predicate PlainNames(ms: Membership) {
    forall g, x :: 0 <= g < |ms.groups| && x in ms.groups[g] ==> '~' !in x
  }

  ghost function SigsOf(nodes: set<string>, digest: string): set<string> {
    set x | x in nodes :: Sign(x, digest)
  }

  lemma SigsAreValid(members: seq<string>, nodes: set<string>, digest: string)
    requires nodes <= Names(members) && forall x :: x in members ==> '~' !in x
    ensures ValidSigners(members, digest, SigsOf(nodes, digest)) == nodes
  {
    forall x | x in nodes ensures SigValid(Sign(x, digest), digest) && SigSigner(Sign(x, digest)) == x && x in members {
      SignRoundTrip(x, digest);
    }
    forall x | x in nodes ensures x in ValidSigners(members, digest, SigsOf(nodes, digest)) {
      assert Sign(x, digest) in SigsOf(nodes, digest);
    }
  }

  lemma {:induction false} GroupFromIs(ms: Membership, node: string, g: nat, i: nat)
    requires i <= g < |ms.groups| && node in ms.groups[g] && forall h :: i <= h < g ==> node !in ms.groups[h]
    ensures GroupFrom(ms, node, i) == g
    decreases g - i
  {
    if i < g {
      GroupFromIs(ms, node, g, i + 1);
    }
  }

  lemma {:induction false} GroupFromNone(ms: Membership, node: string, i: nat)
    requires forall h :: 0 <= h < |ms.groups| ==> node !in ms.groups[h]
    ensures GroupFrom(ms, node, i) == -1
    decreases |ms.groups| - i
  {
    if i < |ms.groups| {
      GroupFromNone(ms, node, i + 1);
    }
  }

  lemma RepresentativeSpeaks(p: Params, ms: Membership, g: nat, digest: string, sigs: set<string>)
    requires p.Valid() && Grouping(p, ms) && g < p.R()
    ensures Contribution(ms, OutPrepare(ms.representatives[g], 0, digest, sigs)) == Some(FromRepresentative(g, digest, sigs))
  {
    var node := ms.representatives[g];
    forall h | 0 <= h < g ensures node !in ms.groups[h] {
      assert node in ms.groups[g];
    }
    GroupFromIs(ms, node, g, 0);
  }

  lemma UngroupedSpeaks(p: Params, ms: Membership, node: string, digest: string, sigs: set<string>)
    requires p.Valid() && Grouping(p, ms) && node in ms.ungrouped
    ensures Contribution(ms, OutPrepare(node, 0, digest, sigs)) == Some(FromUngrouped(node, digest, sigs))
  {
    GroupFromNone(ms, node, 0);
  }

  /** The signers of each of the first k groups, as their representatives forwarded them. */
  ghost predicate Filled(l: Ledger, digest: string, chosen: seq<set<string>>, k: nat) {
    && k <= |chosen|
    && (forall g :: 0 <= g < k ==> Best(l, g, digest) == |chosen[g]| && SignersOf(l, g, digest) == chosen[g])
    && (forall g :: g >= k ==> Best(l, g, digest) == 0 && SignersOf(l, g, digest) == {})
  }

  lemma OtherGroupsKept(l: Ledger, members: seq<string>, at: int, digest: string, sigs: set<string>, g: int)
    requires g != at
    ensures var l' := Aggregate(l, members, at, digest, sigs);
            Best(l', g, digest) == Best(l, g, digest) && SignersOf(l', g, digest) == SignersOf(l, g, digest)
  {
    var mine, other := (g, digest), (at, digest);
    assert mine.0 != other.0;
  }

  lemma FilledFurther(l: Ledger, members: seq<string>, digest: string, sigs: set<string>, chosen: seq<set<string>>, k: nat)
    requires k < |chosen| && Filled(l, digest, chosen, k) && ValidSigners(members, digest, sigs) == chosen[k]
    ensures Filled(Aggregate(l, members, k, digest, sigs), digest, chosen, k + 1)
    ensures UngroupedOf(Aggregate(l, members, k, digest, sigs), digest) == UngroupedOf(l, digest)
  {
    var l' := Aggregate(l, members, k, digest, sigs);
    forall g | g != k ensures Best(l', g, digest) == Best(l, g, digest) && SignersOf(l', g, digest) == SignersOf(l, g, digest) {
      OtherGroupsKept(l, members, k, digest, sigs, g);
    }
  }

  /** What is chosen in each group are members of it. */
  ghost predicate WithinGroups(ms: Membership, chosen: seq<set<string>>) {
    |chosen| == |ms.groups| && forall g :: 0 <= g < |chosen| ==> chosen[g] <= Names(ms.groups[g])
  }

  lemma {:induction false} RepresentativesForward(p: Params, filed: Membership, digest: string, chosen: seq<set<string>>, k: nat)
    returns (judged: seq<Judged>)
    requires p.Valid() && Grouping(p, filed) && PlainNames(filed) && WithinGroups(filed, chosen) && k <= |chosen|
    ensures JudgedBy(filed, [], judged) && Fits(filed, judged)
    ensures Filled(LedgerOf(filed, judged), digest, chosen, k) && UngroupedOf(LedgerOf(filed, judged), digest) == {}
  {
    if k == 0 {
      judged := [];
      assert LedgerOf(filed, judged) == NO_VOTES;
    } else {
      var before := RepresentativesForward(p, filed, digest, chosen, k - 1);
      judged := OneForwards(p, filed, digest, chosen, k - 1, before);
    }
  }

  lemma OneForwards(p: Params, filed: Membership, digest: string, chosen: seq<set<string>>, g: nat, before: seq<Judged>)
    returns (judged: seq<Judged>)
    requires p.Valid() && Grouping(p, filed) && PlainNames(filed) && WithinGroups(filed, chosen) && g < |chosen|
    requires JudgedBy(filed, [], before) && Fits(filed, before)
    requires Filled(LedgerOf(filed, before), digest, chosen, g) && UngroupedOf(LedgerOf(filed, before), digest) == {}
    ensures JudgedBy(filed, [], judged) && Fits(filed, judged)
    ensures Filled(LedgerOf(filed, judged), digest, chosen, g + 1) && UngroupedOf(LedgerOf(filed, judged), digest) == {}
  {
    var sigs := SigsOf(chosen[g], digest);
    var j := Judged(filed, OutPrepare(filed.representatives[g], 0, digest, sigs));
    SigsAreValid(filed.groups[g], chosen[g], digest);
    RepresentativeSpeaks(p, filed, g, digest, sigs);
    LedgerOfLonger(filed, before, j);
    FilledFurther(LedgerOf(filed, before), filed.groups[g], digest, sigs, chosen, g);
    judged := before + [j];
  }

  lemma SingleCounts(l: Ledger, node: string, digest: string, chosen: seq<set<string>>, k: nat)
    requires '~' !in node && Filled(l, digest, chosen, k)
    ensures var l' := Single(l, node, digest, {Sign(node, digest)});
            Filled(l', digest, chosen, k) && UngroupedOf(l', digest) == UngroupedOf(l, digest) + {node}
  {
    SignRoundTrip(node, digest);
    assert Sign(node, digest) in {Sign(node, digest)};
    assert SignsItself(node, digest, {Sign(node, digest)});
    var l' := Single(l, node, digest, {Sign(node, digest)});
    forall g ensures Best(l', g, digest) == Best(l, g, digest) && SignersOf(l', g, digest) == SignersOf(l, g, digest) {
    }
  }

  /** Moved nodes speak again, each under a grouping that leaves it ungrouped. */
  lemma {:induction false} MovedSpeakAgain(p: Params, filed: Membership, later: seq<Membership>, digest: string, chosen: seq<set<string>>,
                                           nodes: set<string>, before: seq<Judged>) returns (judged: seq<Judged>)
    requires p.Valid() && Groupings(p, filed, later) && PlainNames(filed) && nodes <= Moved(filed, later)
    requires JudgedBy(filed, later, before) && Fits(filed, before)
    requires Filled(LedgerOf(filed, before), digest, chosen, |chosen|) && UngroupedOf(LedgerOf(filed, before), digest) == {}
    ensures JudgedBy(filed, later, judged) && Fits(filed, judged)
    ensures Filled(LedgerOf(filed, judged), digest, chosen, |chosen|) && UngroupedOf(LedgerOf(filed, judged), digest) == nodes
    decreases |nodes|
  {
    judged := before;
    if nodes != {} {
      var x :| x in nodes;
      var fewer := MovedSpeakAgain(p, filed, later, digest, chosen, nodes - {x}, before);
      judged := OneSpeaksAgain(p, filed, later, digest, chosen, x, fewer);
      assert nodes - {x} + {x} == nodes;
    }
  }

  lemma OneSpeaksAgain(p: Params, filed: Membership, later: seq<Membership>, digest: string, chosen: seq<set<string>>,
                       x: string, before: seq<Judged>) returns (judged: seq<Judged>)
    requires p.Valid() && Groupings(p, filed, later) && PlainNames(filed) && x in Moved(filed, later)
    requires JudgedBy(filed, later, before) && Fits(filed, before) && Filled(LedgerOf(filed, before), digest, chosen, |chosen|)
    ensures JudgedBy(filed, later, judged) && Fits(filed, judged) && Filled(LedgerOf(filed, judged), digest, chosen, |chosen|)
    ensures UngroupedOf(LedgerOf(filed, judged), digest) == UngroupedOf(LedgerOf(filed, before), digest) + {x}
  {
    assert UngroupedLater(later, x) && '~' !in x;
    var k :| 0 <= k < |later| && x in later[k].ungrouped;
    var j := Judged(later[k], OutPrepare(x, 0, digest, {Sign(x, digest)}));
    assert Grouping(p, later[k]);
    UngroupedSpeaks(p, later[k], x, digest, {Sign(x, digest)});
    LedgerOfLonger(filed, before, j);
    SingleCounts(LedgerOf(filed, before), x, digest, chosen, |chosen|);
    judged := before + [j];
  }

  // ---------- counting it ----------

  /** The first `full` groups have exactly a full aggregate, the others less. */
  ghost predicate FullThenWeak(chosen: seq<set<string>>, full: nat, q: int) {
    && full <= |chosen|
    && (forall g :: 0 <= g < full ==> |chosen[g]| == q)
    && (forall g :: full <= g < |chosen| ==> |chosen[g]| < q)
  }

  lemma {:induction false} VotesOfChosen(p: Params, l: Ledger, digest: string, chosen: seq<set<string>>, full: nat, i: nat)
    requires p.Valid() && Filled(l, digest, chosen, |chosen|) && FullThenWeak(chosen, full, p.FullVoteQuorum()) && i <= |chosen|
    ensures VotesUpTo(p, l, digest, i) == if i <= full then i * p.m else full * p.m + SizeSum(chosen, full, i)
  {
    if i > 0 {
      VotesOfChosen(p, l, digest, chosen, full, i - 1);
      OneMore(i - 1, p.m);
    }
  }

  lemma {:induction false} SignersOfChosen(l: Ledger, digest: string, chosen: seq<set<string>>, full: nat, q: int, i: nat)
    requires Filled(l, digest, chosen, |chosen|) && FullThenWeak(chosen, full, q) && i <= |chosen|
    ensures |UnionUpTo(l, digest, i)| <= if i <= full then i * q else full * q + SizeSum(chosen, full, i)
  {
    if i > 0 {
      SignersOfChosen(l, digest, chosen, full, q, i - 1);
      OneMore(i - 1, q);
      var before, mine := UnionUpTo(l, digest, i - 1), SignersOf(l, i - 1, digest);
      assert |before + mine| == |before| + |mine| - |before * mine|;
    }
  }

  lemma {:induction false} InUnion(l: Ledger, digest: string, g: nat, i: nat, x: string)
    requires g < i && x in SignersOf(l, g, digest)
    ensures x in UnionUpTo(l, digest, i)
  {
    if g < i - 1 {
      InUnion(l, digest, g, i - 1, x);
    }
  }

  lemma ProofWithinUnion(ms: Membership, l: Ledger, digest: string)
    requires LedgerOk(ms, l) && UngroupedOf(l, digest) <= UnionUpTo(l, digest, |ms.groups|)
    ensures ProofSigners(l, digest) <= UnionUpTo(l, digest, |ms.groups|)
  {
    forall x | x in GroupSigners(l, digest) ensures x in UnionUpTo(l, digest, |ms.groups|) {
      var key :| key in l.signers && key.1 == digest && x in l.signers[key];
      assert (key.0, digest) in l.signers;
      InUnion(l, digest, key.0, |ms.groups|, x);
    }
  }

  lemma Arithmetic(p: Params, full: int, q: int, e: int)
    requires p.Valid() && q == p.FullVoteQuorum() && full == p.R() - p.W() - 1 && e == p.E()
    ensures q == 2 * e + 1 && e >= 1 && 0 <= full < p.R() && q <= p.m
    ensures full * p.m + (q - 1) + (e + 1) == p.VoteThreshold() && full * q + (q - 1) < p.ProofQuorum()
  {
    OneMore(full, p.m);
    OneMore(full, q);
  }

  // ---------- more than E moved nodes ----------

  ghost function Parts(ms: Membership, nodes: set<string>): seq<set<string>> {
    seq(|ms.groups|, g requires 0 <= g < |ms.groups| => nodes * Names(ms.groups[g]))
  }

  lemma PartsDisjoint(p: Params, ms: Membership, nodes: set<string>)
    requires p.Valid() && Grouping(p, ms)
    ensures Disjoint(Parts(ms, nodes))
  {
    var parts := Parts(ms, nodes);
    forall g, h | 0 <= g < h < |parts| ensures parts[g] * parts[h] == {} {
      forall x | x in parts[g] ensures x !in parts[h] {
        assert x in ms.groups[g];
      }
    }
  }

  lemma {:induction false} SumSplit(sets: seq<set<string>>, a: nat, b: nat)
    requires a < b <= |sets|
    ensures SizeSum(sets, a, b) == |sets[a]| + SizeSum(sets, a + 1, b)
    decreases b
  {
    if a + 1 < b {
      SumSplit(sets, a, b - 1);
    }
  }

  lemma {:induction false} SumSame(a: seq<set<string>>, b: seq<set<string>>, i: nat, j: nat)
    requires i <= j <= |a| == |b| && forall g :: i <= g < j ==> |a[g]| == |b[g]|
    ensures SizeSum(a, i, j) == SizeSum(b, i, j)
    decreases j
  {
    if i < j {
      SumSame(a, b, i, j - 1);
    }
  }

  ghost function AllNames(ms: Membership): seq<set<string>> {
    seq(|ms.groups|, g requires 0 <= g < |ms.groups| => Names(ms.groups[g]))
  }

  lemma PartsSizes(p: Params, ms: Membership, nodes: set<string>, full: nat)
    requires p.Valid() && Grouping(p, ms) && full < p.R()
    ensures var parts := Parts(ms, nodes);
            |parts[full]| + SizeSum(parts, full + 1, |parts|) <= |nodes| && forall g :: full < g < |parts| ==> |parts[g]| <= |nodes|
    ensures forall g :: 0 <= g < p.R() ==> |Parts(ms, nodes)[g]| <= |nodes| && |AllNames(ms)[g]| == p.m
  {
    var parts := Parts(ms, nodes);
    PartsDisjoint(p, ms, nodes);
    DisjointWithin(parts, full, |parts|, nodes);
    SumSplit(parts, full, |parts|);
    forall g | 0 <= g < |parts| ensures |Names(ms.groups[g])| == p.m && |parts[g]| <= |nodes| {
      NamesCount(ms.groups[g]);
      SubsetSize(parts[g], nodes);
    }
  }

  /** Sets that cover the given parts: q in each of the first places, q - 1 in the others together. */
  lemma CoverParts(parts: seq<set<string>>, names: seq<set<string>>, full: nat, q: nat) returns (chosen: seq<set<string>>)
    requires |parts| == |names| && full < |parts| && |parts[full]| + SizeSum(parts, full + 1, |parts|) < q
    requires forall g :: 0 <= g < |parts| ==> parts[g] <= names[g] && |parts[g]| < q <= |names[g]|
    ensures |chosen| == |parts| && FullThenWeak(chosen, full, q) && SizeSum(chosen, full, |chosen|) == q - 1
    ensures forall g :: 0 <= g < |chosen| ==> parts[g] <= chosen[g] <= names[g]
  {
    var rest: nat := q - 1 - SizeSum(parts, full + 1, |parts|);
    var sizes: seq<nat> := seq(|parts|, g requires 0 <= g < |parts| => if g < full then q else if g == full then rest else |parts[g]|);
    chosen := SetsBetween(parts, names, sizes);
    SumSplit(chosen, full, |chosen|);
    SumSame(chosen, parts, full + 1, |parts|);
  }

  /** Signers that cover the given nodes: a full aggregate in each of the first groups, q - 1 signers in the rest. */
  lemma ChooseSigners(p: Params, ms: Membership, nodes: set<string>, full: nat, q: int) returns (chosen: seq<set<string>>)
    requires p.Valid() && Grouping(p, ms) && full < p.R() && q <= p.m && |nodes| <= q - 1
    ensures WithinGroups(ms, chosen) && FullThenWeak(chosen, full, q) && SizeSum(chosen, full, |chosen|) == q - 1
    ensures forall g :: 0 <= g < |chosen| ==> nodes * Names(ms.groups[g]) <= chosen[g]
  {
    PartsSizes(p, ms, nodes, full);
    chosen := CoverParts(Parts(ms, nodes), AllNames(ms), full, q);
  }

  lemma ChosenFallShort(p: Params, filed: Membership, l: Ledger, digest: string, chosen: seq<set<string>>, nodes: set<string>, full: nat)
    requires p.Valid() && Grouping(p, filed) && LedgerOk(filed, l) && WithinGroups(filed, chosen) && full == p.R() - p.W() - 1
    requires Filled(l, digest, chosen, |chosen|) && UngroupedOf(l, digest) == nodes && |nodes| == p.E() + 1
    requires FullThenWeak(chosen, full, p.FullVoteQuorum()) && SizeSum(chosen, full, |chosen|) == p.FullVoteQuorum() - 1
    requires forall x :: x in nodes ==> exists g :: 0 <= g < |chosen| && x in chosen[g]
    ensures FallsShort(p, l, digest)
  {
    var q := p.FullVoteQuorum();
    Arithmetic(p, full, q, p.E());
    VotesOfChosen(p, l, digest, chosen, full, p.R());
    SignersOfChosen(l, digest, chosen, full, q, p.R());
    forall x | x in nodes ensures x in UnionUpTo(l, digest, p.R()) {
      var g :| 0 <= g < |chosen| && x in chosen[g];
      InUnion(l, digest, g, p.R(), x);
    }
    ProofWithinUnion(filed, l, digest);
    SubsetSize(ProofSigners(l, digest), UnionUpTo(l, digest, p.R()));
  }

  /** If more than E nodes moved, messages of representatives and of moved nodes meet the threshold with too small a proof. */
  lemma ManyMovedFallShort(p: Params, filed: Membership, later: seq<Membership>, digest: string) returns (judged: seq<Judged>)
    requires p.Valid() && Groupings(p, filed, later) && PlainNames(filed) && |Moved(filed, later)| > p.E()
    ensures JudgedBy(filed, later, judged) && Fits(filed, judged) && FallsShort(p, LedgerOf(filed, judged), digest)
  {
    var q, full := p.FullVoteQuorum(), p.R() - p.W() - 1;
    Arithmetic(p, full, q, p.E());
    var nodes := SubsetOfSize(Moved(filed, later), p.E() + 1);
    var chosen := ChooseSigners(p, filed, nodes, full, q);
    var before := RepresentativesForward(p, filed, digest, chosen, |chosen|);
    judged := MovedSpeakAgain(p, filed, later, digest, chosen, nodes, before);
    var additions := JudgedAdditions(filed, judged);
    AdditionsKeep(filed, additions);
    forall x | x in nodes ensures exists g :: 0 <= g < |chosen| && x in chosen[g] {
      var g :| 0 <= g < |filed.groups| && x in filed.groups[g];
      assert x in nodes * Names(filed.groups[g]);
    }
    ChosenFallShort(p, filed, LedgerOf(filed, judged), digest, chosen, nodes, full);
  }

  // ---------- the first COMMIT ----------

  /** The same messages in another view. */
  function Restamped(judged: seq<Judged>, view: int): seq<Judged> {
    if judged == [] then []
    else
      var last := judged[|judged| - 1];
      Restamped(judged[..|judged| - 1], view) + [last.(msg := last.msg.(view := view))]
  }

  lemma {:induction false} RestampedLedger(filed: Membership, later: seq<Membership>, judged: seq<Judged>, view: int)
    requires Fits(filed, judged) && JudgedBy(filed, later, judged)
    ensures var again := Restamped(judged, view);
            && Fits(filed, again) && JudgedBy(filed, later, again) && LedgerOf(filed, again) == LedgerOf(filed, judged)
            && forall k :: 0 <= k < |again| ==> again[k].msg.view == view
  {
    if judged != [] {
      var init, last := judged[..|judged| - 1], judged[|judged| - 1];
      RestampedLedger(filed, later, init, view);
      LedgerOfLonger(filed, Restamped(init, view), last.(msg := last.msg.(view := view)));
    }
  }

  /** The receiver is a representative under every grouping that judges its messages, and they are for its view. */
  ghost predicate Listens(r: Receiver, filed: Membership, judged: seq<Judged>)
    requires Fits(filed, judged)
  {
    forall k :: 0 <= k < |judged| ==> IsRepresentative(judged[k].ms, r.id) && judged[k].msg.view == r.view
  }

  lemma {:induction false} ListensToAll(p: Params, r: Receiver, filed: Membership, judged: seq<Judged>)
    requires p.m > 0 && Fits(filed, judged) && Listens(r, filed, judged)
    ensures RoundAfter(p, r, filed, judged).ledger == LedgerOf(filed, judged)
  {
    if judged != [] {
      ListensToAll(p, r, filed, judged[..|judged| - 1]);
    }
  }

  lemma {:induction false} ProofOnlyGrows(filed: Membership, judged: seq<Judged>, k: nat, digest: string)
    requires Fits(filed, judged) && k <= |judged|
    ensures ProofSigners(LedgerOf(filed, judged[..k]), digest) <= ProofSigners(LedgerOf(filed, judged), digest)
  {
    if k < |judged| {
      var init, last := judged[..|judged| - 1], judged[|judged| - 1];
      ProofOnlyGrows(filed, init, k, digest);
      assert init[..k] == judged[..k];
      TakenGrows(filed, last.ms, LedgerOf(filed, init), last.msg, digest);
    } else {
      assert judged[..k] == judged;
    }
  }

  lemma TakenGrows(filed: Membership, ms: Membership, l: Ledger, msg: OutPrepare, digest: string)
    requires |ms.representatives| == |ms.groups| == |filed.groups|
    ensures ProofSigners(l, digest) <= ProofSigners(Taken(filed, ms, l, msg), digest)
  {
    if Contribution(ms, msg).Some? {
      ContributionFits(ms, msg);
      match Contribution(ms, msg).value {
        case FromRepresentative(g, d, sigs) => IndividualGrows(l, filed.groups[g], g, d, sigs, digest);
        case FromMember(g, d, sigs) => IndividualGrows(l, filed.groups[g], g, d, sigs, digest);
        case FromUngrouped(node, d, sigs) =>
      }
    }
  }

  lemma IndividualGrows(l: Ledger, members: seq<string>, g: int, d: string, sigs: set<string>, digest: string)
    ensures GroupSigners(l, digest) <= GroupSigners(Individual(l, members, g, d, sigs), digest)
  {
    var l' := Individual(l, members, g, d, sigs);
    forall x | x in GroupSigners(l, digest) ensures x in GroupSigners(l', digest) {
      var key :| key in l.signers && key.1 == digest && x in l.signers[key];
      assert key in l'.signers && x in l'.signers[key];
    }
  }

  /** A flag that is set was set by a COMMIT. */
  lemma {:induction false} SentSomewhere(p: Params, r: Receiver, filed: Membership, judged: seq<Judged>) returns (k: nat)
    requires p.m > 0 && Fits(filed, judged) && RoundAfter(p, r, filed, judged).commitSent
    ensures k < |judged| && CommitAt(p, r, filed, judged, k).Some?
  {
    var last := |judged| - 1;
    if CommitAt(p, r, filed, judged, last).Some? {
      k := last;
    } else {
      k := SentSomewhere(p, r, filed, judged[..last]);
      assert judged[..last][..k] == judged[..k];
    }
  }

  /** A receiver that hears messages whose ledger falls short sends a COMMIT that the primary refuses. */
  lemma ShortCommitLeaves(p: Params, r: Receiver, filed: Membership, judged: seq<Judged>) returns (k: nat)
    requires p.Valid() && |filed.groups| == p.R() && Fits(filed, judged) && Listens(r, filed, judged) && r.digest.Some?
    requires FallsShort(p, LedgerOf(filed, judged), r.digest.value)
    ensures k < |judged| && CommitAt(p, r, filed, judged, k).Some? && !PrimaryAccepts(p, CommitAt(p, r, filed, judged, k).value)
  {
    MeetsThresholdSends(p, r, filed, judged);
    k := SentSomewhere(p, r, filed, judged);
    CommitIsClaim(p, r, filed, judged, k);
    var prefix := judged[..k + 1];
    ListensToAll(p, r, filed, prefix);
    ProofOnlyGrows(filed, judged, k + 1, r.digest.value);
    SubsetSize(ProofSigners(LedgerOf(filed, prefix), r.digest.value), ProofSigners(LedgerOf(filed, judged), r.digest.value));
    ShortClaimRefused(p, filed, prefix, r.digest.value);
  }

  lemma ThresholdPositive(p: Params)
    requires p.Valid()
    ensures p.VoteThreshold() > 0
  {
    Arithmetic(p, p.R() - p.W() - 1, p.FullVoteQuorum(), p.E());
    assert (p.R() - p.W() - 1) * p.m >= 0;
  }

  lemma {:induction false} NoVotesYet(p: Params, digest: string, k: nat)
    requires p.Valid()
    ensures VotesUpTo(p, NO_VOTES, digest, k) == 0
  {
    Arithmetic(p, p.R() - p.W() - 1, p.FullVoteQuorum(), p.E());
    if k > 0 {
      NoVotesYet(p, digest, k - 1);
    }
  }

  lemma {:induction false} MeetsThresholdSends(p: Params, r: Receiver, filed: Membership, judged: seq<Judged>)
    requires p.Valid() && |filed.groups| == p.R() && Fits(filed, judged) && Listens(r, filed, judged) && r.digest.Some?
    requires VotesFor(p, LedgerOf(filed, judged), r.digest.value, p.R()) >= p.VoteThreshold()
    ensures RoundAfter(p, r, filed, judged).commitSent
  {
    ListensToAll(p, r, filed, judged);
    if judged == [] {
      NoVotesYet(p, r.digest.value, p.R());
      ThresholdPositive(p);
    } else {
      var init, last := judged[..|judged| - 1], judged[|judged| - 1];
      ListensToAll(p, r, filed, init);
      if !Counts(r, last.ms, last.msg) {
        MeetsThresholdSends(p, r, filed, init);
      }
    }
  }

  // ---------- the exact condition ----------

  /** A representative of the ledger's grouping and of every later one. */
  ghost predicate HoldsOffice(r: Receiver, filed: Membership, later: seq<Membership>) {
    && |filed.representatives| == |filed.groups| && IsRepresentative(filed, r.id)
    && forall k :: 0 <= k < |later| ==> |later[k].representatives| == |later[k].groups| && IsRepresentative(later[k], r.id)
  }

  /** More than E nodes moved: a representative in all groupings is sent messages that make it send a COMMIT which the
      primary refuses. */
  lemma ManyMovedFail(p: Params, r: Receiver, filed: Membership, later: seq<Membership>) returns (judged: seq<Judged>, k: nat)
    requires p.Valid() && Groupings(p, filed, later) && PlainNames(filed) && HoldsOffice(r, filed, later) && r.digest.Some?
    requires |Moved(filed, later)| > p.E()
    ensures JudgedBy(filed, later, judged) && Fits(filed, judged) && k < |judged|
    ensures CommitAt(p, r, filed, judged, k).Some? && !PrimaryAccepts(p, CommitAt(p, r, filed, judged, k).value)
  {
    var short := ManyMovedFallShort(p, filed, later, r.digest.value);
    RestampedLedger(filed, later, short, r.view);
    judged := Restamped(short, r.view);
    k := ShortCommitLeaves(p, r, filed, judged);
  }

  /** Every COMMIT of a representative passes the primary, over all messages that the groupings judge, if and only if
      at most E nodes of the ledger's groups are ungrouped in a later grouping. */
  lemma ThresholdSufficesExactly(p: Params, r: Receiver, filed: Membership, later: seq<Membership>)
    requires p.Valid() && Groupings(p, filed, later) && PlainNames(filed) && HoldsOffice(r, filed, later) && r.digest.Some?
    ensures CommitsPass(p, r, filed, later) <==> |Moved(filed, later)| <= p.E()
  {
    if |Moved(filed, later)| <= p.E() {
      FewMovedSuffices(p, r, filed, later);
    } else {
      var judged, k := ManyMovedFail(p, r, filed, later);
    }
  }

  // ---------- regroupings of a ring ----------

  /** The nodes that a grouping leaves over. */
  function LeftOver(p: Params): nat
    requires p.Valid()
  {
    (p.n - 1) % p.m
  }

  lemma LeftOverIsRemainder(p: Params)
    requires p.Valid()
    ensures LeftOver(p) < p.m <= p.R() * p.m && p.R() * p.m + LeftOver(p) == p.n - 1
  {
    MoreGroupsMoreNodes(1, p.R(), p.m);
    var n, m := p.n - 1, p.m;
    assert n == m * (n / m) + n % m;
    assert p.R() * m == m * (n / m);
  }

  /** The place on a ring of n that lies u + 1 places beyond `start`. */
  function Beyond(n: nat, start: nat, u: nat): nat
    requires start < n && u < n
  {
    if start + u + 1 < n then start + u + 1 else start + u + 1 - n
  }

  /** A primary one place beyond as many nodes as are left over. */
  function NextPrimary(p: Params, start: nat): nat
    requires p.Valid() && start < p.n
  {
    LeftOverIsRemainder(p);
    Beyond(p.n, start, LeftOver(p))
  }

  ghost function RingGrouping(p: Params, ordered: seq<string>, start: nat, representatives: seq<string>, view: nat): Membership
    requires p.Valid() && start < |ordered| == p.n
  {
    LeftOverIsRemainder(p);
    MembershipOf(ordered, start, representatives, view, p.m, p.R())
  }

  /** If the groups leave nobody over, no regrouping of the ring can do harm. */
  lemma NobodyLeftOver(p: Params, r: Receiver, filed: Membership, later: seq<Membership>)
    requires p.Valid() && Groupings(p, filed, later) && forall k :: 0 <= k < |later| ==> |later[k].ungrouped| == LeftOver(p)
    requires LeftOver(p) == 0
    ensures CommitsPass(p, r, filed, later)
  {
    assert forall x :: !UngroupedLater(later, x);
    assert Moved(filed, later) == {};
    FewMovedSuffices(p, r, filed, later);
  }

  lemma BeyondIndex(n: nat, start: nat, u: nat, t: nat)
    requires start < n && t < u < n
    ensures (Beyond(n, start, u) + n - u + t) % n == (start + 1 + t) % n
  {
    Wraps(Beyond(n, start, u) + n - u + t, n);
    Wraps(start + 1 + t, n);
  }

  /** A later primary, one place beyond as many nodes as are left over: the nodes then left over are in the first
      group of the ledger. */
  lemma RegroupingMoves(p: Params, ordered: seq<string>, start: nat, reps: seq<string>, reps': seq<string>, view: nat, t: nat)
    requires p.Valid() && start < |ordered| == p.n && view < p.n && t < LeftOver(p)
    ensures var start' := NextPrimary(p, start);
            var filed, later := RingGrouping(p, ordered, start, reps, view), RingGrouping(p, ordered, start', reps', view);
            && |filed.groups| == p.R() && |filed.groups[0]| == p.m && |later.ungrouped| == LeftOver(p)
            && later.ungrouped[t] == filed.groups[0][t]
  {
    var u := LeftOver(p);
    LeftOverIsRemainder(p);
    RingShape(p, ordered, start, reps, view);
    RingShape(p, ordered, Beyond(p.n, start, u), reps', view);
    SameNode(ordered, start, u, t, p.R() * p.m);
  }

  lemma SameNode(ordered: seq<string>, start: nat, u: nat, t: nat, grouped: nat)
    requires start < |ordered| && t < u && grouped + u == |ordered| - 1
    ensures Others(ordered, Beyond(|ordered|, start, u))[grouped + t] == Others(ordered, start)[t]
  {
    var start' := Beyond(|ordered|, start, u);
    BeyondIndex(|ordered|, start, u, t);
    assert start' + 1 + (grouped + t) == start' + |ordered| - u + t;
  }

  lemma MembershipShape(ordered: seq<string>, start: nat, reps: seq<string>, view: nat, m: nat, r: nat)
    requires start < |ordered| && |ordered| > 1 && r >= 1 && r * m <= |ordered| - 1 && view < |ordered|
    ensures var ms, others := MembershipOf(ordered, start, reps, view, m, r), Others(ordered, start);
            m <= |others| && |ms.groups| == r && ms.groups[0] == others[..m] && ms.ungrouped == others[r * m..]
  {
    var others := Others(ordered, start);
    NoOffset(view, |ordered|, |others|);
    assert Rotated(others, 0) == others;
    GroupedShape(ordered[start], reps, others, m, r);
  }

  lemma NoOffset(view: nat, n: nat, k: nat)
    requires view < n && k > 0
    ensures (view / n) % k == 0
  {
    assert view / n == 0;
  }

  lemma GroupedShape(primary: string, reps: seq<string>, others: seq<string>, m: nat, r: nat)
    requires r >= 1 && r * m <= |others|
    ensures var ms := Grouped(primary, reps, others, m, r);
            m <= |others| && |ms.groups| == r && ms.groups[0] == others[..m] && ms.ungrouped == others[r * m..]
  {
    GroupFits(m, r, 0);
  }

  lemma RingShape(p: Params, ordered: seq<string>, start: nat, reps: seq<string>, view: nat)
    requires p.Valid() && start < |ordered| == p.n && view < p.n
    ensures var ms, others := RingGrouping(p, ordered, start, reps, view), Others(ordered, start);
            && 0 <= p.m <= p.R() * p.m <= |others|
            && |ms.groups| == p.R() && ms.groups[0] == others[..p.m] && ms.ungrouped == others[p.R() * p.m..]
  {
    LeftOverIsRemainder(p);
    MembershipShape(ordered, start, reps, view, p.m, p.R());
  }

  /** In a ring whose groups leave more than E nodes over, one change of the primary within a view suffices: a node that
      represents a group before and after it can be made to send a COMMIT that the primary refuses. */
  lemma OneRegroupingSuffices(p: Params, r: Receiver, ordered: seq<string>, start: nat, reps: seq<string>, reps': seq<string>, view: nat)
    returns (later: Membership, judged: seq<Judged>, k: nat)
    requires p.Valid() && start < |ordered| == p.n && view < p.n && Distinct(ordered) && LeftOver(p) > p.E() && r.digest.Some?
    requires forall x :: x in ordered ==> '~' !in x
    requires Grouping(p, RingGrouping(p, ordered, start, reps, view))
    requires Grouping(p, RingGrouping(p, ordered, NextPrimary(p, start), reps', view))
    requires HoldsOffice(r, RingGrouping(p, ordered, start, reps, view), [RingGrouping(p, ordered, NextPrimary(p, start), reps', view)])
    ensures later == RingGrouping(p, ordered, NextPrimary(p, start), reps', view)
    ensures var filed := RingGrouping(p, ordered, start, reps, view);
            && JudgedBy(filed, [later], judged) && Fits(filed, judged) && k < |judged|
            && CommitAt(p, r, filed, judged, k).Some? && !PrimaryAccepts(p, CommitAt(p, r, filed, judged, k).value)
  {
    var filed := RingGrouping(p, ordered, start, reps, view);
    later := RingGrouping(p, ordered, NextPrimary(p, start), reps', view);
    RingNamesPlain(p, ordered, start, reps, view);
    LeftOverMoves(p, ordered, start, reps, reps', view);
    judged, k := MovedOnceFail(p, r, filed, later);
  }

  lemma MovedOnceFail(p: Params, r: Receiver, filed: Membership, later: Membership) returns (judged: seq<Judged>, k: nat)
    requires p.Valid() && Grouping(p, filed) && Grouping(p, later) && PlainNames(filed) && HoldsOffice(r, filed, [later]) && r.digest.Some?
    requires |Moved(filed, [later])| > p.E()
    ensures JudgedBy(filed, [later], judged) && Fits(filed, judged) && k < |judged|
    ensures CommitAt(p, r, filed, judged, k).Some? && !PrimaryAccepts(p, CommitAt(p, r, filed, judged, k).value)
  {
    judged, k := ManyMovedFail(p, r, filed, [later]);
  }

  lemma RingNamesPlain(p: Params, ordered: seq<string>, start: nat, reps: seq<string>, view: nat)
    requires p.Valid() && start < |ordered| == p.n && forall x :: x in ordered ==> '~' !in x
    ensures PlainNames(RingGrouping(p, ordered, start, reps, view))
  {
    var ms := RingGrouping(p, ordered, start, reps, view);
    LeftOverIsRemainder(p);
    forall g, x | 0 <= g < |ms.groups| && x in ms.groups[g] ensures '~' !in x {
      GroupFits(p.m, p.R(), g);
      assert x in ordered;
    }
  }

  lemma LeftOverMoves(p: Params, ordered: seq<string>, start: nat, reps: seq<string>, reps': seq<string>, view: nat)
    requires p.Valid() && start < |ordered| == p.n && view < p.n
    requires Grouping(p, RingGrouping(p, ordered, NextPrimary(p, start), reps', view))
    ensures var later := RingGrouping(p, ordered, NextPrimary(p, start), reps', view);
            |Moved(RingGrouping(p, ordered, start, reps, view), [later])| >= LeftOver(p)
  {
    LeftOverIsRemainder(p);
    var filed := RingGrouping(p, ordered, start, reps, view);
    var later := RingGrouping(p, ordered, NextPrimary(p, start), reps', view);
    if LeftOver(p) > 0 {
      RegroupingMoves(p, ordered, start, reps, reps', view, 0);
      NamesCount(later.ungrouped);
      forall x | x in Names(later.ungrouped) ensures x in Moved(filed, [later]) {
        var t :| 0 <= t < |later.ungrouped| && later.ungrouped[t] == x;
        RegroupingMoves(p, ordered, start, reps, reps', view, t);
        assert x in filed.groups[0] && [later][0] == later && UngroupedLater([later], x);
      }
      SubsetSize(Names(later.ungrouped), Moved(filed, [later]));
    }
  }
}
