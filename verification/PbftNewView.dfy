/** The new-view decision procedure of the PBFT simulator. It ranges over Go maps, so when several requests are
    eligible for a sequence number the one that is visited first wins; the model keeps every possible choice. */
module PbftNewView {
  import opened Quorums

  datatype Option<T> = None | Some(value: T)

  /** A request that a replica prepared (P) or pre-prepared (Q) at a sequence number in a view. */
  datatype Entry = Entry(sequence: int, digest: string, view: int)

  datatype ViewChange = ViewChange(view: int, sender: int, pSet: seq<Entry>, qSet: seq<Entry>)

  type ViewChanges = map<int, ViewChange>

  // ---------- eligibility ----------

  /** The first P entry for the sequence number. */
  function FirstP(pSet: seq<Entry>, s: int): Option<Entry> {
    if pSet == [] then None else if pSet[0].sequence == s then Some(pSet[0]) else FirstP(pSet[1..], s)
  }

  /** Condition A1 for one message: nothing prepared later, and nothing else in the same view. */
  predicate Bounded(vc: ViewChange, s: int, e: Entry) {
    forall p :: p in vc.pSet && p.sequence == s ==> p.view < e.view || (p.view == e.view && p.digest == e.digest)
  }

  /** Condition A2 for one message: the request was pre-prepared in that view or later. */
  predicate Supports(vc: ViewChange, s: int, e: Entry) {
    exists q :: q in vc.qSet && q.sequence == s && q.digest == e.digest && q.view >= e.view
  }

  function BoundedBy(S: ViewChanges, s: int, e: Entry): set<int> {
    set id | id in S && Bounded(S[id], s, e)
  }

  function SupportedBy(S: ViewChanges, s: int, e: Entry): set<int> {
    set id | id in S && Supports(S[id], s, e)
  }

  function WithoutP(S: ViewChanges, s: int): set<int> {
    set id | id in S && FirstP(S[id].pSet, s).None?
  }

  /** The message of replica `id` makes its first P entry eligible. */
  predicate Eligible(f: nat, S: ViewChanges, s: int, id: int) {
    && id in S && FirstP(S[id].pSet, s).Some?
    && var e := FirstP(S[id].pSet, s).value;
       |BoundedBy(S, s, e)| >= 2 * f + 1 && |SupportedBy(S, s, e)| >= f + 1
  }

  ghost predicate MayChoose(f: nat, S: ViewChanges, s: int, digest: string) {
    exists id :: Eligible(f, S, s, id) && FirstP(S[id].pSet, s).value.digest == digest
  }

  ghost predicate SomeEligible(f: nat, S: ViewChanges, s: int) {
    exists id :: Eligible(f, S, s, id)
  }

  function Sequences(S: ViewChanges): set<int> {
    (set id, p | id in S && p in S[id].pSet :: p.sequence) + (set id, q | id in S && q in S[id].qSet :: q.sequence)
  }

  /** What the procedure may answer: an eligible request where there is one, else the null request where 2f+1
      messages prepared nothing, else nothing. */
  ghost predicate IsOutcome(f: nat, S: ViewChanges, decisions: map<int, string>) {
    && decisions.Keys <= Sequences(S)
    && forall s :: s in Sequences(S) ==> DecidedOk(f, S, s, decisions)
  }

  ghost predicate DecidedOk(f: nat, S: ViewChanges, s: int, decisions: map<int, string>) {
    if SomeEligible(f, S, s) then s in decisions && MayChoose(f, S, s, decisions[s])
    else if |WithoutP(S, s)| >= 2 * f + 1 then s in decisions && decisions[s] == "null"
    else s !in decisions
  }

  // ---------- the procedure ----------

  method FirstEntry(pSet: seq<Entry>, s: int) returns (e: Option<Entry>)
    ensures e == FirstP(pSet, s)
  {
    var i := 0;
    while i < |pSet|
      invariant 0 <= i <= |pSet| && FirstP(pSet, s) == FirstP(pSet[i..], s)
    {
      if pSet[i].sequence == s {
        return Some(pSet[i]);
      }
      i := i + 1;
    }
    return None;
  }

  /** The counts do not depend on the order of the visit. */
  method CountA1(S: ViewChanges, s: int, e: Entry) returns (count: nat)
    ensures count == |BoundedBy(S, s, e)|
  {
    count := 0;
    var todo := S.Keys;
    ghost var counted: set<int> := {};
    while todo != {}
      invariant todo <= S.Keys
      invariant counted == (set id | id in S && id !in todo && Bounded(S[id], s, e)) && count == |counted|
    {
      NonEmpty(todo);
      var id :| id in todo;
      if Bounded(S[id], s, e) {
        count, counted := count + 1, counted + {id};
      }
      todo := todo - {id};
    }
    assert counted == BoundedBy(S, s, e);
  }

  method CountA2(S: ViewChanges, s: int, e: Entry) returns (count: nat)
    ensures count == |SupportedBy(S, s, e)|
  {
    count := 0;
    var todo := S.Keys;
    ghost var counted: set<int> := {};
    while todo != {}
      invariant todo <= S.Keys
      invariant counted == (set id | id in S && id !in todo && Supports(S[id], s, e)) && count == |counted|
    {
      NonEmpty(todo);
      var id :| id in todo;
      if Supports(S[id], s, e) {
        count, counted := count + 1, counted + {id};
      }
      todo := todo - {id};
    }
    assert counted == SupportedBy(S, s, e);
  }

  method CountB(S: ViewChanges, s: int) returns (count: nat)
    ensures count == |WithoutP(S, s)|
  {
    count := 0;
    var todo := S.Keys;
    ghost var counted: set<int> := {};
    while todo != {}
      invariant todo <= S.Keys
      invariant counted == (set id | id in S && id !in todo && FirstP(S[id].pSet, s).None?) && count == |counted|
    {
      NonEmpty(todo);
      var id :| id in todo;
      var first := FirstEntry(S[id].pSet, s);
      if first.None? {
        count, counted := count + 1, counted + {id};
      }
      todo := todo - {id};
    }
    assert counted == WithoutP(S, s);
  }

  /** Visits the messages in some order and stops at the first eligible one. */
  method Choose(f: nat, S: ViewChanges, s: int) returns (digest: Option<string>)
    ensures digest.Some? ==> MayChoose(f, S, s, digest.value)
    ensures digest.None? ==> !SomeEligible(f, S, s)
  {
    var todo := S.Keys;
    while todo != {}
      invariant todo <= S.Keys
      invariant forall id :: id in S && id !in todo ==> !Eligible(f, S, s, id)
    {
      NonEmpty(todo);
      var id :| id in todo;
      var e := FirstEntry(S[id].pSet, s);
      if e.Some? {
        var a1 := CountA1(S, s, e.value);
        var a2 := CountA2(S, s, e.value);
        if a1 >= 2 * f + 1 && a2 >= f + 1 {
          assert Eligible(f, S, s, id);
          return Some(e.value.digest);
        }
      }
      todo := todo - {id};
    }
    return None;
  }

  method Decide(f: nat, S: ViewChanges, s: int) returns (digest: Option<string>)
    ensures DecidedOk(f, S, s, if digest.Some? then map[s := digest.value] else map[])
  {
    digest := Choose(f, S, s);
    if digest.Some? {
      var d := digest.value;
      assert SomeEligible(f, S, s) by {
        var id :| Eligible(f, S, s, id) && FirstP(S[id].pSet, s).value.digest == d;
      }
      return;
    }
    var b := CountB(S, s);
    if b >= 2 * f + 1 {
      digest := Some("null");
    }
  }

  method DecisionProcedure(f: nat, S: ViewChanges) returns (decisions: map<int, string>, complete: bool)
    ensures IsOutcome(f, S, decisions) && (complete <==> decisions.Keys == Sequences(S))
  {
    decisions := map[];
    var todo := Sequences(S);
    while todo != {}
      invariant todo <= Sequences(S) && decisions.Keys <= Sequences(S) - todo
      invariant forall s :: s in Sequences(S) && s !in todo ==> DecidedOk(f, S, s, decisions)
    {
      NonEmpty(todo);
      var s :| s in todo;
      var digest := Decide(f, S, s);
      ghost var before := decisions;
      if digest.Some? {
        decisions := decisions[s := digest.value];
      }
      forall r | r in Sequences(S) && r !in todo ensures DecidedOk(f, S, r, decisions) {
        assert DecidedOk(f, S, r, before) && (r in before <==> r in decisions) && (r in before ==> before[r] == decisions[r]);
      }
      todo := todo - {s};
    }
    complete := |decisions| == |Sequences(S)|;
    assert |decisions| == |decisions.Keys|;
    if complete {
      SameSize(decisions.Keys, Sequences(S));
    }
  }

  lemma SameSize(a: set<int>, b: set<int>)
    requires a <= b && |a| == |b|
    ensures a == b
  {
    assert b == a + (b - a);
  }

  // ---------- when the order does not matter ----------

  lemma {:induction false} FirstPIsThere(pSet: seq<Entry>, s: int)
    ensures FirstP(pSet, s).Some? ==> FirstP(pSet, s).value in pSet && FirstP(pSet, s).value.sequence == s
  {
    if pSet != [] && pSet[0].sequence != s {
      FirstPIsThere(pSet[1..], s);
    }
  }

  lemma EveryoneBounded(f: nat, S: ViewChanges, s: int, e: Entry, id: int)
    requires |S| <= 2 * f + 1 && |BoundedBy(S, s, e)| >= 2 * f + 1 && id in S
    ensures Bounded(S[id], s, e)
  {
    assert |S| == |S.Keys|;
    SubsetSize(BoundedBy(S, s, e), S.Keys);
    SameSize(BoundedBy(S, s, e), S.Keys);
    assert id in S.Keys;
  }

  /** With at most 2f+1 messages, all eligible entries for a sequence number name one request. */
  lemma OneEligibleRequest(f: nat, S: ViewChanges, s: int, a: string, b: string)
    requires |S| <= 2 * f + 1 && MayChoose(f, S, s, a) && MayChoose(f, S, s, b)
    ensures a == b
  {
    var i :| Eligible(f, S, s, i) && FirstP(S[i].pSet, s).value.digest == a;
    var j :| Eligible(f, S, s, j) && FirstP(S[j].pSet, s).value.digest == b;
    FirstPIsThere(S[i].pSet, s);
    FirstPIsThere(S[j].pSet, s);
    EveryoneBounded(f, S, s, FirstP(S[i].pSet, s).value, j);
    EveryoneBounded(f, S, s, FirstP(S[j].pSet, s).value, i);
  }

  lemma OutcomeUnique(f: nat, S: ViewChanges, a: map<int, string>, b: map<int, string>)
    requires |S| <= 2 * f + 1 && IsOutcome(f, S, a) && IsOutcome(f, S, b)
    ensures a == b
  {
    forall s | s in Sequences(S) ensures (s in a <==> s in b) && (s in a ==> a[s] == b[s]) {
      assert DecidedOk(f, S, s, a) && DecidedOk(f, S, s, b);
      if SomeEligible(f, S, s) {
        OneEligibleRequest(f, S, s, a[s], b[s]);
      }
    }
    assert forall s :: s in a ==> s in Sequences(S);
    assert forall s :: s in b ==> s in Sequences(S);
  }

  // ---------- what replicas can send ----------

  /** One replica reports at most one request per sequence number, the same in P and in Q. */
  predicate OneAccount(vc: ViewChange) {
    && (forall a, b :: a in vc.pSet && b in vc.pSet && a.sequence == b.sequence ==> a == b)
    && (forall a, b :: a in vc.qSet && b in vc.qSet && a.sequence == b.sequence ==> a == b)
    && (forall a, b :: a in vc.pSet && b in vc.qSet && a.sequence == b.sequence ==> a.digest == b.digest)
  }

  /** A view-change message reports earlier views only. */
  predicate Earlier(vc: ViewChange) {
    (forall p :: p in vc.pSet ==> p.view < vc.view) && (forall q :: q in vc.qSet ==> q.view < vc.view)
  }

  predicate Contradicts(q: Entry, e: Entry) {
    q.sequence == e.sequence && q.view == e.view && q.digest != e.digest
  }

  /** The correct replicas that pre-prepared another request at the same place. */
  ghost function Dissenters(S: ViewChanges, faulty: set<int>, e: Entry): set<int> {
    set id | id in S && id !in faulty && exists q :: q in S[id].qSet && Contradicts(q, e)
  }

  /** The primary of a view in a system of 3f+1 replicas. */
  function Primary(f: nat, view: int): int {
    view % (3 * f + 1)
  }

  ghost predicate FromMembers(f: nat, S: ViewChanges, faulty: set<int>) {
    faulty <= Members(3 * f + 1) && |faulty| <= f && S.Keys <= Members(3 * f + 1)
  }

  ghost predicate OneViewChange(S: ViewChanges, view: int) {
    forall i :: i in S ==> S[i].sender == i && S[i].view == view && Earlier(S[i])
  }

  ghost predicate OneAccountEach(S: ViewChanges, faulty: set<int>) {
    forall i :: i in S && i !in faulty ==> OneAccount(S[i])
  }

  ghost predicate PrimariesBlamed(f: nat, S: ViewChanges, faulty: set<int>) {
    forall i, j, p, q :: i in S && j in S && i !in faulty && j !in faulty && p in S[i].qSet && q in S[j].qSet && Contradicts(p, q)
                         ==> Primary(f, p.view) in faulty
  }

  ghost predicate PreparedBacked(f: nat, S: ViewChanges, faulty: set<int>) {
    forall i, p :: i in S && i !in faulty && p in S[i].pSet ==> |Dissenters(S, faulty, p)| <= f
  }

  /** Messages of one view change in a system of 3f+1 replicas, at most f of them faulty. Correct replicas give
      one account each, differ about a view only if its primary is faulty, and what one of them prepared at most
      f others contradict. */
  ghost predicate Sendable(f: nat, S: ViewChanges, faulty: set<int>, view: int) {
    && FromMembers(f, S, faulty) && OneViewChange(S, view) && OneAccountEach(S, faulty)
    && PrimariesBlamed(f, S, faulty) && PreparedBacked(f, S, faulty)
  }

  // ---------- when the order decides ----------

  function X(f: nat): Entry {
    Entry(1, "x", 2 * f + 1)
  }

  function Y(f: nat): Entry {
    Entry(1, "y", 2 * f + 1)
  }

  /** The faulty primary of view 2f+1 gave one request to the replicas 0..f and another one to the rest. Replica 0
      prepared the first; the primary claims to have prepared the second. */
  ghost function Rivals(f: nat, n: nat): ViewChanges {
    map id | id in Members(n) ::
      ViewChange(3 * f + 1, id, if id == 0 then [X(f)] else if id == 2 * f + 1 then [Y(f)] else [], if id <= f then [X(f)] else [Y(f)])
  }

  ghost function LastReplicas(f: nat): set<int> {
    Members(3 * f + 1) - Members(2 * f + 1)
  }

  lemma Difference(a: nat, b: nat)
    requires a <= b
    ensures |Members(b) - Members(a)| == b - a
  {
    assert Members(a) <= Members(b);
  }

  lemma PrimaryOfRivals(f: nat)
    requires f >= 1
    ensures Primary(f, 2 * f + 1) == 2 * f + 1 && Primary(f, 3 * f + 1) == 0
  {
    var n := 3 * f + 1;
    assert (2 * f + 1) % n == 2 * f + 1;
  }

  lemma RivalEntries(f: nat, n: nat, i: int, e: Entry)
    requires i in Rivals(f, n)
    ensures e in Rivals(f, n)[i].qSet <==> e == if i <= f then X(f) else Y(f)
    ensures e in Rivals(f, n)[i].pSet ==> (i == 0 && e == X(f)) || (i == 2 * f + 1 && e == Y(f))
  {
  }

  lemma RivalsBacked(f: nat, n: nat)
    requires 2 * f + 2 <= n <= 3 * f + 1
    ensures PreparedBacked(f, Rivals(f, n), LastReplicas(f))
  {
    var S, faulty := Rivals(f, n), LastReplicas(f);
    forall i, p | i in S && i !in faulty && p in S[i].pSet ensures |Dissenters(S, faulty, p)| <= f {
      RivalEntries(f, n, i, p);
      assert i < 2 * f + 1;
      assert p == X(f);
      FewDissenters(f, n);
    }
  }

  lemma FewDissenters(f: nat, n: nat)
    requires 2 * f + 2 <= n <= 3 * f + 1
    ensures |Dissenters(Rivals(f, n), LastReplicas(f), X(f))| <= f
  {
    var S, others := Rivals(f, n), Members(2 * f + 1) - Members(f + 1);
    forall id | id in Dissenters(S, LastReplicas(f), X(f)) ensures id in others {
      var q :| q in S[id].qSet && Contradicts(q, X(f));
      RivalEntries(f, n, id, q);
    }
    Difference(f + 1, 2 * f + 1);
    SubsetSize(Dissenters(S, LastReplicas(f), X(f)), others);
  }

  lemma RivalsOneEach(f: nat, n: nat)
    requires 2 * f + 2 <= n <= 3 * f + 1
    ensures OneViewChange(Rivals(f, n), 3 * f + 1) && OneAccountEach(Rivals(f, n), LastReplicas(f))
  {
    var S := Rivals(f, n);
    forall i | i in S ensures Earlier(S[i]) {
      forall e | e in S[i].pSet || e in S[i].qSet ensures e.view < S[i].view {
        RivalEntries(f, n, i, e);
      }
    }
    forall i | i in S && i !in LastReplicas(f) ensures OneAccount(S[i]) {
      forall a, b | (a in S[i].pSet || a in S[i].qSet) && (b in S[i].pSet || b in S[i].qSet) ensures a == b {
        RivalEntries(f, n, i, a);
        RivalEntries(f, n, i, b);
      }
    }
  }

  lemma BlamedAt(f: nat, S: ViewChanges, faulty: set<int>, view: int)
    requires (forall i, p :: i in S && p in S[i].qSet ==> p.view == view) && Primary(f, view) in faulty
    ensures PrimariesBlamed(f, S, faulty)
  {
  }

  lemma RivalsBlamed(f: nat, n: nat)
    requires 2 * f + 2 <= n <= 3 * f + 1
    ensures PrimariesBlamed(f, Rivals(f, n), LastReplicas(f))
  {
    var S := Rivals(f, n);
    forall i, p | i in S && p in S[i].qSet ensures p.view == 2 * f + 1 {
      RivalEntries(f, n, i, p);
    }
    FaultyPrimary(f);
    BlamedAt(f, S, LastReplicas(f), 2 * f + 1);
  }

  lemma FaultyPrimary(f: nat)
    requires f >= 1
    ensures Primary(f, 2 * f + 1) in LastReplicas(f)
  {
    PrimaryOfRivals(f);
  }

  lemma RivalsSendable(f: nat, n: nat)
    requires 2 * f + 2 <= n <= 3 * f + 1
    ensures Sendable(f, Rivals(f, n), LastReplicas(f), 3 * f + 1)
  {
    Difference(2 * f + 1, 3 * f + 1);
    RivalsOneEach(f, n);
    RivalsBlamed(f, n);
    RivalsBacked(f, n);
  }

  lemma RivalEligible(f: nat, n: nat, id: int)
    requires 2 * f + 2 <= n && (id == 0 || id == 2 * f + 1)
    ensures Eligible(f, Rivals(f, n), 1, id) && MayChoose(f, Rivals(f, n), 1, if id == 0 then "x" else "y")
  {
    var S, e := Rivals(f, n), if id == 0 then X(f) else Y(f);
    assert FirstP(S[id].pSet, 1) == Some(e);
    var rest := Members(n) - {2 * f + 1 - id};
    forall k | k in rest ensures k in BoundedBy(S, 1, e) {
    }
    SubsetSize(rest, BoundedBy(S, 1, e));
    var backers := if id == 0 then Members(f + 1) else Members(n) - Members(f + 1);
    Difference(f + 1, n);
    forall k | k in backers ensures k in SupportedBy(S, 1, e) {
      assert e in S[k].qSet;
    }
    SubsetSize(backers, SupportedBy(S, 1, e));
  }

  lemma RivalsSequences(f: nat, n: nat)
    requires n > 0
    ensures Sequences(Rivals(f, n)) == {1} && |Rivals(f, n)| == n
  {
    var S := Rivals(f, n);
    forall s | s in Sequences(S) ensures s == 1 {
      var id, e :| id in S && (e in S[id].pSet || e in S[id].qSet) && e.sequence == s;
      RivalEntries(f, n, id, e);
    }
    RivalEntries(f, n, 0, X(f));
    assert X(f) in S[0].qSet && X(f).sequence == 1;
    assert S.Keys == Members(n) && |S| == |S.Keys|;
  }

  lemma OnlyChoiceIsOutcome(f: nat, S: ViewChanges, digest: string)
    requires Sequences(S) == {1} && SomeEligible(f, S, 1) && MayChoose(f, S, 1, digest)
    ensures IsOutcome(f, S, map[1 := digest])
  {
  }

  /** With more than 2f+1 messages that replicas can send, the order can decide. */
  lemma OrderDecides(f: nat, n: nat) returns (S: ViewChanges)
    requires 2 * f + 2 <= n <= 3 * f + 1
    ensures |S| == n && Sendable(f, S, LastReplicas(f), 3 * f + 1) && Sequences(S) == {1}
    ensures IsOutcome(f, S, map[1 := "x"]) && IsOutcome(f, S, map[1 := "y"])
  {
    S := Rivals(f, n);
    RivalsSendable(f, n);
    RivalsSequences(f, n);
    RivalEligible(f, n, 0);
    RivalEligible(f, n, 2 * f + 1);
    OnlyChoiceIsOutcome(f, S, "x");
    OnlyChoiceIsOutcome(f, S, "y");
  }

  /** The same, for the view change to a view with a correct primary. */
  lemma SendableRivals(f: nat, n: nat) returns (S: ViewChanges, faulty: set<int>, view: int)
    requires 2 * f + 2 <= n <= 3 * f + 1
    ensures |S| == n && Sendable(f, S, faulty, view) && Primary(f, view) !in faulty && |S| >= 2 * f + 1
    ensures Sequences(S) == {1} && IsOutcome(f, S, map[1 := "x"]) && IsOutcome(f, S, map[1 := "y"])
  {
    S := OrderDecides(f, n);
    faulty, view := LastReplicas(f), 3 * f + 1;
    PrimaryOfRivals(f);
  }

  ghost predicate OrderIrrelevantFor(f: nat, S: ViewChanges) {
    forall a: map<int, string>, b: map<int, string> :: IsOutcome(f, S, a) && IsOutcome(f, S, b) ==> a == b
  }

  ghost predicate OrderIrrelevant(f: nat, n: nat) {
    forall S: ViewChanges, faulty: set<int>, view: int :: |S| == n && Sendable(f, S, faulty, view) ==> OrderIrrelevantFor(f, S)
  }

  /** In a system of 3f+1 replicas the outcome is independent of the order of the visit exactly up to 2f+1 messages. */
  lemma OrderIrrelevantExactly(f: nat, n: nat)
    requires n <= 3 * f + 1
    ensures OrderIrrelevant(f, n) <==> n <= 2 * f + 1
  {
    if n <= 2 * f + 1 {
      forall S: ViewChanges, faulty: set<int>, view: int | |S| == n && Sendable(f, S, faulty, view) ensures OrderIrrelevantFor(f, S) {
        QuorumFixesOutcome(f, S);
      }
    } else {
      var S := RivalOutcomes(f, n);
    }
  }

  lemma QuorumFixesOutcome(f: nat, S: ViewChanges)
    requires |S| <= 2 * f + 1
    ensures OrderIrrelevantFor(f, S)
  {
    forall a: map<int, string>, b: map<int, string> | IsOutcome(f, S, a) && IsOutcome(f, S, b) ensures a == b {
      OutcomeUnique(f, S, a, b);
    }
  }

  lemma RivalOutcomes(f: nat, n: nat) returns (S: ViewChanges)
    requires 2 * f + 2 <= n <= 3 * f + 1
    ensures |S| == n && Sendable(f, S, LastReplicas(f), 3 * f + 1) && !OrderIrrelevantFor(f, S)
  {
    S := OrderDecides(f, n);
    TwoOutcomes(f, S);
  }

  lemma TwoOutcomes(f: nat, S: ViewChanges)
    requires IsOutcome(f, S, map[1 := "x"]) && IsOutcome(f, S, map[1 := "y"])
    ensures !OrderIrrelevantFor(f, S)
  {
    DifferentChoices();
  }

  lemma DifferentChoices()
    ensures map[1 := "x"] != map[1 := "y"]
  {
    var a: map<int, string>, b: map<int, string> := map[1 := "x"], map[1 := "y"];
    assert a[1][0] != b[1][0];
  }

  /** Every eligible request is chosen under some order: visit its message first. */
  function ChosenBy(f: nat, S: ViewChanges, s: int, order: seq<int>): Option<string> {
    if order == [] then None
    else if Eligible(f, S, s, order[0]) then Some(FirstP(S[order[0]].pSet, s).value.digest)
    else ChosenBy(f, S, s, order[1..])
  }

  ghost predicate Visits(S: ViewChanges, order: seq<int>) {
    (forall id :: id in order <==> id in S) && forall i, j :: 0 <= i < j < |order| ==> order[i] != order[j]
  }

  lemma EveryChoicePossible(f: nat, S: ViewChanges, s: int, digest: string) returns (order: seq<int>)
    requires MayChoose(f, S, s, digest)
    ensures Visits(S, order) && ChosenBy(f, S, s, order) == Some(digest)
  {
    var id :| Eligible(f, S, s, id) && FirstP(S[id].pSet, s).value.digest == digest;
    var rest := Listing(S.Keys - {id});
    order := [id] + rest;
  }
}
