/** Building a NEW-VIEW message from the qualified view-changes and verifying it at a backup. The digest of a
    view-change message stands for the message itself. */
module PbftNode {
  import opened Quorums
  import opened PbftNewView

  datatype VCEntry = VCEntry(replica: int, digest: ViewChange)

  datatype XEntry = XEntry(sequence: int, digest: string, payload: string)

  datatype NewView = NewView(view: int, sender: int, vSet: seq<VCEntry>, xSet: seq<XEntry>)

  datatype Verdict = Waiting | Missing | Rejected | Accepted(msg: NewView)

  // ---------- what the messages say ----------

  /** The V set names every qualified message once. */
  ghost predicate NamesAll(vSet: seq<VCEntry>, S: ViewChanges) {
    && |vSet| == |S|
    && (forall v :: v in vSet ==> v.replica in S && S[v.replica] == v.digest)
    && (forall id :: id in S ==> VCEntry(id, S[id]) in vSet)
  }

  /** The X set lists every decision once. */
  ghost predicate ListsAll(xSet: seq<XEntry>, decisions: map<int, string>) {
    && |xSet| == |decisions|
    && (forall x :: x in xSet ==> x.sequence in decisions && decisions[x.sequence] == x.digest)
    && (forall s :: s in decisions ==> Listed(xSet, s))
  }

  ghost predicate Listed(xSet: seq<XEntry>, s: int) {
    exists x :: x in xSet && x.sequence == s
  }

  /** A NEW-VIEW message that the primary may build from these view-changes. */
  ghost predicate Builds(f: nat, S: ViewChanges, msg: NewView) {
    |S| >= 2 * f + 1 && NamesAll(msg.vSet, S) && exists decisions :: Announces(f, S, decisions, msg.xSet)
  }

  /** There are enough view-changes, and they decide every sequence number. */
  ghost predicate MustComplete(f: nat, S: ViewChanges) {
    && |S| >= 2 * f + 1
    && forall s :: s in Sequences(S) ==> SomeEligible(f, S, s) || |WithoutP(S, s)| >= 2 * f + 1
  }

  ghost predicate Announces(f: nat, S: ViewChanges, decisions: map<int, string>, xSet: seq<XEntry>) {
    IsOutcome(f, S, decisions) && decisions.Keys == Sequences(S) && ListsAll(xSet, decisions)
  }

  /** The view-changes that a V set names, as far as the log has them with the same digest. */
  function Found(log: ViewChanges, vSet: seq<VCEntry>): ViewChanges {
    if vSet == [] then map[]
    else
      var v := vSet[|vSet| - 1];
      var rest := Found(log, vSet[..|vSet| - 1]);
      if v.replica in log && log[v.replica] == v.digest then rest[v.replica := v.digest] else rest
  }

  predicate AllFound(log: ViewChanges, vSet: seq<VCEntry>) {
    forall i :: 0 <= i < |vSet| ==> vSet[i].replica in log && log[vSet[i].replica] == vSet[i].digest
  }

  /** A missing decision reads as the empty text. */
  function DecisionAt(decisions: map<int, string>, s: int): string {
    if s in decisions then decisions[s] else ""
  }

  /** The backup's own decisions are the ones in the message. */
  predicate Matches(decisions: map<int, string>, complete: bool, xSet: seq<XEntry>) {
    && complete && |decisions| == |xSet|
    && forall i :: 0 <= i < |xSet| ==> DecisionAt(decisions, xSet[i].sequence) == xSet[i].digest
  }

  ghost predicate AnswersWith(f: nat, S: ViewChanges, decisions: map<int, string>, msg: NewView, verdict: Verdict) {
    && IsOutcome(f, S, decisions)
    && verdict == if Matches(decisions, decisions.Keys == Sequences(S), msg.xSet) then Accepted(msg) else Rejected
  }

  /** What the verification may answer, over all orders in which the backup's decision procedure may run. */
  ghost predicate MayAnswer(f: nat, log: ViewChanges, msg: NewView, verdict: Verdict) {
    if !AllFound(log, msg.vSet) then verdict == Missing
    else if |Found(log, msg.vSet)| < 2 * f + 1 then verdict == Rejected
    else exists decisions :: AnswersWith(f, Found(log, msg.vSet), decisions, msg, verdict)
  }

  predicate Acknowledged(acks: map<int, set<int>>, sender: int, f: nat) {
    (if sender in acks then |acks[sender]| else 0) >= 2 * f - 1
  }

  /** The view-changes that enough replicas acknowledged, and the node's own. */
  function Qualified(log: ViewChanges, acks: map<int, set<int>>, id: int, f: nat): ViewChanges {
    map sender | sender in log && (sender == id || Acknowledged(acks, sender, f)) :: log[sender]
  }

  lemma StillListed(xSet: seq<XEntry>, x: XEntry)
    ensures Listed(xSet + [x], x.sequence) && forall s :: Listed(xSet, s) ==> Listed(xSet + [x], s)
  {
    assert x in xSet + [x];
    forall s | Listed(xSet, s) ensures Listed(xSet + [x], s) {
      var y :| y in xSet && y.sequence == s;
      assert y in xSet + [x];
    }
  }

  // ---------- the node ----------

  class Node {
    const id: int
    const totalNodes: nat
    const f: nat
    var view: int
    var viewChangeLog: map<int, ViewChanges>
    var viewChangeAcks: map<int, map<int, set<int>>>
    var newViewSent: set<int>
    var pendingNewView: map<int, NewView>
    var requestLog: map<string, string>

    constructor (id: int, totalNodes: nat, f: nat)
      ensures this.id == id && this.totalNodes == totalNodes && this.f == f && view == 0
      ensures viewChangeLog == map[] && viewChangeAcks == map[] && newViewSent == {} && pendingNewView == map[] && requestLog == map[]
    {
      this.id, this.totalNodes, this.f, view := id, totalNodes, f, 0;
      viewChangeLog, viewChangeAcks, newViewSent, pendingNewView, requestLog := map[], map[], {}, map[], map[];
    }

    function LogOf(v: int): ViewChanges
      reads this
    {
      if v in viewChangeLog then viewChangeLog[v] else map[]
    }

    function AcksOf(v: int): map<int, set<int>>
      reads this
    {
      if v in viewChangeAcks then viewChangeAcks[v] else map[]
    }

    method ListV(S: ViewChanges) returns (vSet: seq<VCEntry>)
      ensures NamesAll(vSet, S)
    {
      vSet := [];
      var todo := S.Keys;
      while todo != {}
        invariant todo <= S.Keys && |vSet| + |todo| == |S.Keys|
        invariant forall v :: v in vSet ==> v.replica in S && S[v.replica] == v.digest
        invariant forall k :: k in S && k !in todo ==> VCEntry(k, S[k]) in vSet
      {
        NonEmpty(todo);
        var k :| k in todo;
        vSet := vSet + [VCEntry(k, S[k])];
        todo := todo - {k};
      }
      assert |S| == |S.Keys|;
    }

    /** The request behind a decision; nothing for the null request and for unknown ones. */
    function PayloadOf(digest: string): string
      reads this
    {
      if digest != "null" && digest in requestLog then requestLog[digest] else ""
    }

    method ListX(decisions: map<int, string>) returns (xSet: seq<XEntry>)
      ensures ListsAll(xSet, decisions)
      ensures forall x :: x in xSet ==> x.payload == PayloadOf(x.digest)
    {
      xSet := [];
      var todo := decisions.Keys;
      while todo != {}
        invariant todo <= decisions.Keys && |xSet| + |todo| == |decisions.Keys|
        invariant forall x :: x in xSet ==> x.sequence in decisions && decisions[x.sequence] == x.digest
        invariant forall s :: s in decisions && s !in todo ==> Listed(xSet, s)
        invariant forall x :: x in xSet ==> x.payload == PayloadOf(x.digest)
      {
        NonEmpty(todo);
        var s :| s in todo;
        var payload := "";
        if decisions[s] != "null" && decisions[s] in requestLog {
          payload := requestLog[decisions[s]];
        }
        ghost var before := xSet;
        xSet := xSet + [XEntry(s, decisions[s], payload)];
        todo := todo - {s};
        StillListed(before, XEntry(s, decisions[s], payload));
      }
      assert |decisions| == |decisions.Keys|;
    }

    method TryBuildNewView(newView: int) returns (msg: Option<NewView>)
      requires totalNodes > 0
      modifies this`newViewSent
      ensures msg.Some? ==>
                && newView % totalNodes == id && newView !in old(newViewSent)
                && msg.value.view == newView && msg.value.sender == id
                && Builds(f, Qualified(LogOf(newView), AcksOf(newView), id, f), msg.value)
                && forall x :: x in msg.value.xSet ==> x.payload == PayloadOf(x.digest)
      ensures (&& newView % totalNodes == id && newView !in old(newViewSent)
               && MustComplete(f, Qualified(LogOf(newView), AcksOf(newView), id, f))) ==> msg.Some?
      ensures newViewSent == if msg.Some? then old(newViewSent) + {newView} else old(newViewSent)
    {
      msg := None;
      if newView % totalNodes != id || newView in newViewSent {
        return;
      }
      var qualified := Qualified(LogOf(newView), AcksOf(newView), id, f);
      if |qualified| < 2 * f + 1 {
        return;
      }
      var decisions, complete := DecisionProcedure(f, qualified);
      if !complete {
        return;
      }
      newViewSent := newViewSent + {newView};
      var vSet := ListV(qualified);
      var xSet := ListX(decisions);
      assert Announces(f, qualified, decisions, xSet);
      msg := Some(NewView(newView, id, vSet, xSet));
    }

    method Collect(log: ViewChanges, vSet: seq<VCEntry>) returns (S: ViewChanges, missing: bool)
      ensures S == Found(log, vSet) && (missing <==> !AllFound(log, vSet))
    {
      S, missing := map[], false;
      var i := 0;
      while i < |vSet|
        invariant 0 <= i <= |vSet|
        invariant S == Found(log, vSet[..i]) && (missing <==> !AllFound(log, vSet[..i]))
      {
        var v := vSet[i];
        assert vSet[..i + 1][..i] == vSet[..i];
        if v.replica !in log || log[v.replica] != v.digest {
          missing := true;
        } else {
          S := S[v.replica := v.digest];
        }
        i := i + 1;
      }
      assert vSet[..i] == vSet;
    }

    method Compare(decisions: map<int, string>, complete: bool, xSet: seq<XEntry>) returns (ok: bool)
      ensures ok <==> Matches(decisions, complete, xSet)
    {
      if !complete || |decisions| != |xSet| {
        return false;
      }
      var i := 0;
      while i < |xSet|
        invariant 0 <= i <= |xSet|
        invariant forall k :: 0 <= k < i ==> DecisionAt(decisions, xSet[k].sequence) == xSet[k].digest
      {
        if DecisionAt(decisions, xSet[i].sequence) != xSet[i].digest {
          return false;
        }
        i := i + 1;
      }
      return true;
    }

    method TryVerifyNewView(v: int) returns (verdict: Verdict)
      modifies this`pendingNewView
      ensures verdict == Waiting <==> v !in old(pendingNewView) || view > v
      ensures verdict != Waiting ==> MayAnswer(f, LogOf(v), old(pendingNewView)[v], verdict)
      ensures pendingNewView == if verdict.Accepted? || verdict.Rejected? then old(pendingNewView) - {v} else old(pendingNewView)
    {
      if v !in pendingNewView || view > v {
        return Waiting;
      }
      var msg := pendingNewView[v];
      var S, missing := Collect(LogOf(v), msg.vSet);
      if missing {
        return Missing;
      }
      if |S| < 2 * f + 1 {
        pendingNewView := pendingNewView - {v};
        return Rejected;
      }
      var decisions, complete := DecisionProcedure(f, S);
      var ok := Compare(decisions, complete, msg.xSet);
      assert AnswersWith(f, S, decisions, msg, if ok then Accepted(msg) else Rejected);
      pendingNewView := pendingNewView - {v};
      verdict := if ok then Accepted(msg) else Rejected;
    }
  }

  // ---------- the round trip ----------

  lemma {:induction false} FoundAll(log: ViewChanges, vSet: seq<VCEntry>)
    requires AllFound(log, vSet)
    ensures forall id :: id in Found(log, vSet) <==> exists i :: 0 <= i < |vSet| && vSet[i].replica == id
    ensures forall id :: id in Found(log, vSet) ==> id in log && Found(log, vSet)[id] == log[id]
  {
    if vSet != [] {
      var last := |vSet| - 1;
      FoundAll(log, vSet[..last]);
    }
  }

  /** The backup has every view-change that the primary used. */
  ghost predicate Holds(log: ViewChanges, S: ViewChanges) {
    forall id :: id in S ==> id in log && log[id] == S[id]
  }

  lemma FindsTheSame(log: ViewChanges, S: ViewChanges, vSet: seq<VCEntry>)
    requires NamesAll(vSet, S) && Holds(log, S)
    ensures AllFound(log, vSet) && Found(log, vSet) == S
  {
    assert forall i :: 0 <= i < |vSet| ==> vSet[i] in vSet;
    FoundAll(log, vSet);
    forall id | id in S ensures id in Found(log, vSet) {
      var i :| 0 <= i < |vSet| && vSet[i] == VCEntry(id, S[id]);
    }
    forall id | id in Found(log, vSet) ensures id in S {
      var i :| 0 <= i < |vSet| && vSet[i].replica == id;
      assert vSet[i] in vSet;
    }
    var found := Found(log, vSet);
    assert found.Keys == S.Keys;
    assert forall id :: id in found ==> found[id] == S[id];
  }

  /** A NEW-VIEW message built from 2f+1 view-changes is accepted by every backup that holds them, whatever
      order either side visits them in. */
  lemma BuiltFromQuorumIsAccepted(f: nat, S: ViewChanges, msg: NewView, log: ViewChanges, verdict: Verdict)
    requires |S| == 2 * f + 1 && Builds(f, S, msg) && Holds(log, S) && MayAnswer(f, log, msg, verdict)
    ensures verdict == Accepted(msg)
  {
    FindsTheSame(log, S, msg.vSet);
    var built :| Announces(f, S, built, msg.xSet);
    var own :| AnswersWith(f, S, own, msg, verdict);
    OutcomeUnique(f, S, built, own);
    AnnouncedMatches(built, msg.xSet);
  }

  lemma AnnouncedMatches(decisions: map<int, string>, xSet: seq<XEntry>)
    requires ListsAll(xSet, decisions)
    ensures Matches(decisions, true, xSet)
  {
    forall i | 0 <= i < |xSet| ensures DecisionAt(decisions, xSet[i].sequence) == xSet[i].digest {
      assert xSet[i] in xSet;
    }
  }

  /** Built from more view-changes, all of them sendable, a correct primary's message may be rejected by a backup
      that holds them all. */
  lemma BuiltFromMoreMayBeRejected(f: nat, n: nat) returns (S: ViewChanges, faulty: set<int>, msg: NewView)
    requires 2 * f + 2 <= n <= 3 * f + 1
    ensures |S| == n && Sendable(f, S, faulty, msg.view) && msg.sender == Primary(f, msg.view) && msg.sender !in faulty
    ensures Builds(f, S, msg) && Holds(S, S) && MayAnswer(f, S, msg, Rejected)
  {
    var view;
    S, faulty, view := SendableRivals(f, n);
    msg := RejectedMessage(f, S, view);
  }

  lemma RejectedMessage(f: nat, S: ViewChanges, view: int) returns (msg: NewView)
    requires |S| >= 2 * f + 1 && Sequences(S) == {1} && IsOutcome(f, S, map[1 := "x"]) && IsOutcome(f, S, map[1 := "y"])
    ensures msg.view == view && msg.sender == Primary(f, view) && Builds(f, S, msg) && Holds(S, S) && MayAnswer(f, S, msg, Rejected)
  {
    var vSet := Entries(S, S.Keys);
    assert |S| == |S.Keys|;
    msg := NewView(view, Primary(f, view), vSet, [XEntry(1, "x", "")]);
    FindsTheSame(S, S, vSet);
    RivalAnswers(f, S, msg);
    AnnouncedIsBuilt(f, S, map[1 := "x"], msg);
    AnswerIsPossible(f, S, S, map[1 := "y"], msg, Rejected);
  }

  lemma AnnouncedIsBuilt(f: nat, S: ViewChanges, decisions: map<int, string>, msg: NewView)
    requires |S| >= 2 * f + 1 && NamesAll(msg.vSet, S) && Announces(f, S, decisions, msg.xSet)
    ensures Builds(f, S, msg)
  {
  }

  lemma AnswerIsPossible(f: nat, log: ViewChanges, S: ViewChanges, decisions: map<int, string>, msg: NewView, verdict: Verdict)
    requires |S| >= 2 * f + 1 && AllFound(log, msg.vSet) && Found(log, msg.vSet) == S
    requires AnswersWith(f, S, decisions, msg, verdict)
    ensures MayAnswer(f, log, msg, verdict)
  {
  }

  lemma RivalAnswers(f: nat, S: ViewChanges, msg: NewView)
    requires IsOutcome(f, S, map[1 := "x"]) && IsOutcome(f, S, map[1 := "y"]) && Sequences(S) == {1}
    requires msg.xSet == [XEntry(1, "x", "")]
    ensures Announces(f, S, map[1 := "x"], msg.xSet) && AnswersWith(f, S, map[1 := "y"], msg, Rejected)
  {
    var built: map<int, string> := map[1 := "x"];
    var own: map<int, string> := map[1 := "y"];
    assert built.Keys == {1} && |built| == |built.Keys| == 1;
    assert msg.xSet[0] in msg.xSet && msg.xSet[0].sequence == 1;
    assert DecisionAt(own, msg.xSet[0].sequence) == "y" && msg.xSet[0].digest == "x" && "x"[0] != "y"[0];
    assert !Matches(own, own.Keys == Sequences(S), msg.xSet);
  }

  lemma {:induction false} Entries(S: ViewChanges, ids: set<int>) returns (vSet: seq<VCEntry>)
    requires ids <= S.Keys
    ensures forall v :: v in vSet ==> v.replica in S && S[v.replica] == v.digest
    ensures |vSet| == |ids| && forall id :: id in ids ==> VCEntry(id, S[id]) in vSet
    decreases |ids|
  {
    vSet := [];
    if ids != {} {
      NonEmpty(ids);
      var id :| id in ids;
      var rest := Entries(S, ids - {id});
      vSet := rest + [VCEntry(id, S[id])];
    }
  }
}
