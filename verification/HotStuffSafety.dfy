/** The properties of HotStuff runs. One certified node per phase and view, the certificate ladder, the
    replicas' trees and the executed state hold in every run. That commits never conflict holds in the
    runs where no correct replica handles a PREPARE or COMMIT that is older than its lock, or a COMMIT that
    is older than a prepare vote it has cast. */
module HotStuffSafety {
  import opened HotStuffTree
  import opened HotStuffBank
  import opened HotStuffVotes
  import opened HotStuffCrypto
  import opened HotStuffNode
  import opened HotStuffEffects
  import opened HotStuffRuns

  // ---------- going forward ----------

  /** A PREPARE or COMMIT is not older than the lock, and a COMMIT not older than a prepare vote. */
  ghost predicate GoesForward(s: NodeState, a: Action) {
    a.Handle? ==>
      && ((a.msg.kind == Prepare || a.msg.kind == Commit) && s.locked.Some? ==> s.locked.value.view <= a.msg.view)
      && (a.msg.kind == Commit ==> forall view :: (Prepare, view) in s.voted ==> view <= a.msg.view)
  }

  ghost predicate ForwardEvent(g: Global, e: Event) {
    e.Act? && e.p in g.nodes ==> GoesForward(g.nodes[e.p], e.a)
  }

  ghost predicate ForwardRun(k: Cluster, events: seq<Event>, states: seq<Global>) {
    Run(k, events, states) && forall i :: 0 <= i < |events| ==> ForwardEvent(states[i], events[i])
  }

  /** Neither the lock nor a vote is ahead of the replica's view. */
  ghost predicate NotAhead(s: NodeState) {
    && (s.locked.Some? ==> s.locked.value.view <= s.view)
    && forall key :: key in s.voted ==> key.1 <= s.view
  }

  lemma TimelyActionStaysBehind(n: nat, c: Scene, a: Action, c': Scene)
    requires TreeOk(c) && LedgerOk(c.s) && NotAhead(c.s) && Acts(n, c, a, c') && (a.Handle? ==> Prompt(a.msg, a.at))
    ensures NotAhead(c'.s) && GoesForward(c.s, a)
  {
    match a {
      case Handle(msg, at) => HandledEffect(n, c, msg);
      case Count(msg) => CountEffect(n, c, msg);
      case Propose(high) => ProposeEffect(n, c, high);
      case _ =>
    }
  }

  ghost predicate AllBehind(g: Global) {
    forall p :: p in g.nodes ==> NotAhead(g.nodes[p])
  }

  lemma TimelyStepStaysBehind(k: Cluster, g: Global, e: Event, g': Global)
    requires Inv(k, g) && AllBehind(g) && Step(k, g, e, g') && TimelyEvent(e)
    ensures AllBehind(g') && ForwardEvent(g, e)
  {
    if e.Act? {
      assert NodeOk(k, g.signed, e.p, g.nodes[e.p]);
      TimelyActionStaysBehind(k.n, SceneOf(g, e.p), e.a, e.after);
    }
  }

  lemma {:induction false} TimelyStaysBehind(k: Cluster, events: seq<Event>, states: seq<Global>, i: nat)
    requires Run(k, events, states) && Timely(events) && i <= |events|
    ensures AllBehind(states[i])
  {
    if i > 0 {
      TimelyStaysBehind(k, events, states, i - 1);
      RunKeeps(k, events, states, i - 1);
      TimelyStepStaysBehind(k, states[i - 1], events[i - 1], states[i]);
    }
  }

  /** Handling PREPARE and COMMIT messages in their own view is one way of going forward. */
  lemma TimelyIsForward(k: Cluster, events: seq<Event>, states: seq<Global>)
    requires Run(k, events, states) && Timely(events)
    ensures ForwardRun(k, events, states)
  {
    forall i | 0 <= i < |events| ensures ForwardEvent(states[i], events[i]) {
      TimelyStaysBehind(k, events, states, i);
      RunKeeps(k, events, states, i);
      TimelyStepStaysBehind(k, states[i], events[i], states[i + 1]);
    }
  }

  // ---------- what forward runs keep ----------

  ghost predicate LockCovers(signed: set<Vote>, p: int, s: NodeState) {
    forall v :: v in signed && v.signer == p && v.kind == Commit ==> s.locked.Some? && v.view <= s.locked.value.view
  }

  ghost predicate CalmNode(k: Cluster, signed: set<Vote>, early: set<Vote>, p: int, s: NodeState) {
    LockCovers(signed, p, s) && LocksRespected(k, signed, early, p)
  }

  ghost predicate CalmInv(k: Cluster, g: Global) {
    && Inv(k, g) && g.early <= g.signed && LateVotesHarmless(k, g.signed, g.early)
    && forall p :: p in g.nodes ==> CalmNode(k, g.signed, g.early, p, g.nodes[p])
  }

  lemma CalmGuarded(k: Cluster, g: Global)
    requires CalmInv(k, g)
    ensures Guarded(k, g.signed, g.early)
  {
    InvOrderly(k, g);
    forall p | k.Correct(p) ensures LocksRespected(k, g.signed, g.early, p) {
      assert CalmNode(k, g.signed, g.early, p, g.nodes[p]);
    }
  }

  lemma BackedGrows(k: Cluster, votes: set<Vote>, more: set<Vote>, low: int, high: int, hash: Hash)
    requires votes <= more && Backed(k, votes, low, high, hash)
    ensures Backed(k, more, low, high, hash)
  {
    var u, y :| low <= u < high && Certified(k, votes, Prepare, u, y) && Extends(hash, y);
    CertifiedGrows(k, votes, more, Prepare, u, y);
  }

  /** Votes of other replicas do not affect what `p` has respected. */
  lemma LocksRespectedGrows(k: Cluster, signed: set<Vote>, more: set<Vote>, early: set<Vote>, moreEarly: set<Vote>, p: int)
    requires LocksRespected(k, signed, early, p) && signed <= more
    requires forall v :: v in more && v.signer == p ==> v in signed
    requires forall v :: v in moreEarly && v.signer == p ==> v in early
    ensures LocksRespected(k, more, moreEarly, p)
  {
    forall a, b | && a in more && b in moreEarly && a.signer == b.signer == p && a.kind == Commit && b.kind == Prepare
                  && a.view < b.view
      ensures Backed(k, more, a.view, b.view, b.hash)
    {
      BackedGrows(k, signed, more, a.view, b.view, b.hash);
    }
  }

  lemma LateHarmlessGrows(k: Cluster, signed: set<Vote>, more: set<Vote>, early: set<Vote>, moreEarly: set<Vote>)
    requires LateVotesHarmless(k, signed, early) && early <= moreEarly && more - moreEarly <= signed - early
    ensures LateVotesHarmless(k, more, moreEarly)
  {
    forall v | v in more && v !in moreEarly ensures exists y :: Certified(k, moreEarly, Prepare, v.view, y) {
      assert v in more - moreEarly;
      var y :| Certified(k, early, Prepare, v.view, y);
      CertifiedGrows(k, early, moreEarly, Prepare, v.view, y);
    }
  }

  /** The lock moves only to the certificate of a handled COMMIT message. */
  lemma ActionMovesLock(n: nat, c: Scene, a: Action, c': Scene)
    requires Acts(n, c, a, c') && TreeOk(c) && LedgerOk(c.s)
    ensures c'.s.locked == c.s.locked
         || (a.Handle? && a.msg.kind == Commit && PhaseOk(n, c, a.msg, PreCommit) && c'.s.locked == a.msg.justify)
    ensures a.Handle? && a.msg.kind == Commit && c' != c ==> PhaseOk(n, c, a.msg, PreCommit) && c'.s.locked == a.msg.justify
  {
    match a {
      case Handle(msg, at) =>
        if msg.sender == Leader(n, msg.view) {
          match msg.kind {
            case Prepare => PrepareEffect(n, c, msg);
            case PreCommit => if PhaseOk(n, c, msg, Prepare) { PreCommitEffect(n, c, msg); }
            case Commit => if PhaseOk(n, c, msg, PreCommit) { CommitEffect(n, c, msg); }
            case Decide => if PhaseOk(n, c, msg, Commit) { DecideEffect(n, c, msg); }
            case NewView =>
          }
        }
      case Count(msg) => CountEffect(n, c, msg);
      case Propose(high) => ProposeEffect(n, c, high);
      case _ =>
    }
  }

  /** A prepare vote cast before the lock reached its view is backed from every earlier commit vote on. */
  lemma EarlyVoteBacked(k: Cluster, g: Global, p: int, node: TreeNode, justify: Option<QC>, view: int, a: Vote)
    requires k.Tolerable() && CalmInv(k, g) && p in g.nodes
    requires PrepareSafe(k.n, SceneOf(g, p), node, justify, view)
    requires a in g.signed && a.signer == p && a.kind == Commit
    requires g.nodes[p].locked.Some? ==> g.nodes[p].locked.value.view < view
    ensures Backed(k, g.signed, a.view, view, node.hash)
  {
    var s := g.nodes[p];
    assert NodeOk(k, g.signed, p, s) && CalmNode(k, g.signed, g.early, p, s);
    var lock := s.locked.value;
    InvOrderly(k, g);
    CertificateLadder(k, g.signed, lock.view, lock.hash);
    if !Extends(node.hash, lock.hash) {
      VerifiedIsCertified(k, g.signed, g.certs, justify.value);
      assert Extends(node.hash, node.parent);
    }
  }

  /** What is left to show for the acting replica and for late votes, once the new votes are known. */
  lemma QuietStep(k: Cluster, g: Global, e: Event, g': Global)
    requires k.Tolerable() && CalmInv(k, g) && Step(k, g, e, g') && e.Act? && ForwardEvent(g, e)
    requires VotesIn(e.after.s.outbox) <= g.signed
    ensures CalmInv(k, g')
  {
    StepKeeps(k, g, e, g');
    assert NodeOk(k, g.signed, e.p, g.nodes[e.p]) && CalmNode(k, g.signed, g.early, e.p, g.nodes[e.p]);
    ActionMovesLock(k.n, SceneOf(g, e.p), e.a, e.after);
    assert VotesIn(e.after.s.outbox) - g.signed == {};
    assert g'.signed == g.signed && g'.early == g.early;
    assert CalmNode(k, g'.signed, g'.early, e.p, g'.nodes[e.p]);
  }

  lemma VotingStep(k: Cluster, g: Global, e: Event, g': Global, v: Vote)
    requires k.Tolerable() && CalmInv(k, g) && Step(k, g, e, g') && e.Act? && ForwardEvent(g, e) && v !in g.signed
    requires e.a.Handle? && v == Vote(e.p, e.a.msg.kind, e.a.msg.view, Target(e.a.msg)) && VotesIn(e.after.s.outbox) - g.signed == {v}
    requires e.a.msg.kind == Prepare ==> e.a.msg.node.Some? && PrepareSafe(k.n, SceneOf(g, e.p), e.a.msg.node.value, e.a.msg.justify, e.a.msg.view)
    ensures CalmInv(k, g')
  {
    StepKeeps(k, g, e, g');
    var p, s := e.p, g.nodes[e.p];
    assert NodeOk(k, g.signed, p, s) && CalmNode(k, g.signed, g.early, p, s);
    assert e.after != SceneOf(g, p);
    assert g'.signed == g.signed + {v};
    VoterStaysCalm(k, g, e, g', v);
    if Late(s, e.a) {
      LateVoteHarmless(k, g, e, g', v);
    } else {
      LateHarmlessGrows(k, g.signed, g'.signed, g.early, g'.early);
    }
    OthersStayCalm(k, g, g', p);
  }

  lemma OthersStayCalm(k: Cluster, g: Global, g': Global, p: int)
    requires CalmInv(k, g) && g.signed <= g'.signed && g'.nodes.Keys == g.nodes.Keys
    requires forall q :: q in g.nodes && q != p ==> g'.nodes[q] == g.nodes[q]
    requires forall v :: v in g'.signed && v !in g.signed ==> v.signer == p || v.signer !in g.nodes
    requires forall v :: v in g'.early && v !in g.early ==> v.signer == p || v.signer !in g.nodes
    ensures forall q :: q in g'.nodes && q != p ==> CalmNode(k, g'.signed, g'.early, q, g'.nodes[q])
  {
    forall q | q in g'.nodes && q != p ensures CalmNode(k, g'.signed, g'.early, q, g'.nodes[q]) {
      assert CalmNode(k, g.signed, g.early, q, g.nodes[q]);
      LocksRespectedGrows(k, g.signed, g'.signed, g.early, g'.early, q);
    }
  }

  lemma LateVoteHarmless(k: Cluster, g: Global, e: Event, g': Global, v: Vote)
    requires k.Tolerable() && CalmInv(k, g) && Step(k, g, e, g') && e.Act? && ForwardEvent(g, e)
    requires Late(g.nodes[e.p], e.a) && v.view == e.a.msg.view && g'.signed == g.signed + {v}
    ensures LateVotesHarmless(k, g'.signed, g'.early)
  {
    var s := g.nodes[e.p];
    assert NodeOk(k, g.signed, e.p, s) && CalmNode(k, g.signed, g.early, e.p, s);
    InvOrderly(k, g);
    assert s.locked.value.view == v.view;
    CertificateLadder(k, g.signed, v.view, s.locked.value.hash);
    CertifiedByEarlyVotes(k, g.signed, g.early, v.view, s.locked.value.hash);
  }

  /** The new vote keeps the lock discipline: an early prepare vote is backed, and a commit vote precedes no
      prepare vote of a later view. */
  lemma VoterRespectsLock(k: Cluster, g: Global, p: int, msg: Message, v: Vote, early: set<Vote>)
    requires k.Tolerable() && CalmInv(k, g) && p in g.nodes && v.signer == p && v.kind == msg.kind && v.view == msg.view
    requires GoesForward(g.nodes[p], Handle(msg, g.nodes[p].view))
    requires v in early ==> early <= g.early + {v} && !Late(g.nodes[p], Handle(msg, v.view))
    requires v !in early ==> early <= g.early
    requires v.kind == Prepare ==>
      msg.node.Some? && v.hash == msg.node.value.hash && PrepareSafe(k.n, SceneOf(g, p), msg.node.value, msg.justify, msg.view)
    ensures LocksRespected(k, g.signed + {v}, early, p)
  {
    assert NodeOk(k, g.signed, p, g.nodes[p]) && CalmNode(k, g.signed, g.early, p, g.nodes[p]);
    forall a, b | && a in g.signed + {v} && b in early && a.signer == b.signer == p && a.kind == Commit && b.kind == Prepare
                  && a.view < b.view
      ensures Backed(k, g.signed + {v}, a.view, b.view, b.hash)
    {
      if b == v {
        EarlyVoteBacked(k, g, p, msg.node.value, msg.justify, msg.view, a);
      }
      BackedGrows(k, g.signed, g.signed + {v}, a.view, b.view, b.hash);
    }
  }

  lemma VoterStaysCalm(k: Cluster, g: Global, e: Event, g': Global, v: Vote)
    requires k.Tolerable() && CalmInv(k, g) && Step(k, g, e, g') && e.Act? && ForwardEvent(g, e) && e.a.Handle? && v !in g.signed
    requires v == Vote(e.p, e.a.msg.kind, e.a.msg.view, Target(e.a.msg)) && g'.signed == g.signed + {v} && e.after != SceneOf(g, e.p)
    requires g'.early == if Late(g.nodes[e.p], e.a) then g.early else g.early + {v}
    requires e.a.msg.kind == Prepare ==> e.a.msg.node.Some? && PrepareSafe(k.n, SceneOf(g, e.p), e.a.msg.node.value, e.a.msg.justify, e.a.msg.view)
    ensures CalmNode(k, g'.signed, g'.early, e.p, e.after.s)
  {
    var p, s := e.p, g.nodes[e.p];
    assert NodeOk(k, g.signed, p, s) && CalmNode(k, g.signed, g.early, p, s);
    ActionMovesLock(k.n, SceneOf(g, p), e.a, e.after);
    LockStillCovers(g.signed, p, s, e.after.s, v);
    VoterRespectsLock(k, g, p, e.a.msg, v, g'.early);
  }

  /** A commit vote comes with a lock in its own view, and no lock moves back. */
  lemma LockStillCovers(signed: set<Vote>, p: int, s: NodeState, s': NodeState, v: Vote)
    requires LockCovers(signed, p, s) && v.signer == p
    requires s.locked.Some? && s'.locked != s.locked ==> s'.locked.Some? && s.locked.value.view <= s'.locked.value.view
    requires v.kind == Commit ==> s'.locked.Some? && s'.locked.value.view == v.view
    ensures LockCovers(signed + {v}, p, s')
  {
  }

  lemma CalmStepKeeps(k: Cluster, g: Global, e: Event, g': Global)
    requires k.Tolerable() && CalmInv(k, g) && Step(k, g, e, g') && ForwardEvent(g, e)
    ensures CalmInv(k, g')
  {
    match e {
      case Act(p, a, after) =>
        ActOk(k, g.signed, p, SceneOf(g, p), a, after);
        var cast := VotesIn(after.s.outbox) - g.signed;
        if cast == {} {
          QuietStep(k, g, e, g');
        } else {
          var v := Vote(p, a.msg.kind, a.msg.view, Target(a.msg));
          assert v in cast;
          VotingStep(k, g, e, g', v);
        }
      case Sign(v) =>
        StepKeeps(k, g, e, g');
        LateHarmlessGrows(k, g.signed, g'.signed, g.early, g'.early);
        OthersStayCalm(k, g, g', v.signer);
      case _ => StepKeeps(k, g, e, g');
    }
  }

  lemma {:induction false} CalmRunKeeps(k: Cluster, events: seq<Event>, states: seq<Global>, i: nat)
    requires k.Tolerable() && ForwardRun(k, events, states) && i <= |events|
    ensures CalmInv(k, states[i])
  {
    if i == 0 {
      InitOk(k, states[0]);
    } else {
      CalmRunKeeps(k, events, states, i - 1);
      CalmStepKeeps(k, states[i - 1], events[i - 1], states[i]);
    }
  }

  // ---------- certificates ----------

  /** Lemma 1 of the protocol: certificates of one type and view certify one node. */
  lemma OneNodePerView(k: Cluster, events: seq<Event>, states: seq<Global>, i: nat, qc1: QC, qc2: QC)
    requires k.Tolerable() && Run(k, events, states) && i <= |events|
    requires Verifies(k.n, states[i].certs, qc1) && Verifies(k.n, states[i].certs, qc2)
    requires qc1.kind == qc2.kind && qc1.view == qc2.view
    ensures qc1.hash == qc2.hash
  {
    var g := states[i];
    RunKeeps(k, events, states, i);
    InvOrderly(k, g);
    VerifiedIsCertified(k, g.signed, g.certs, qc1);
    VerifiedIsCertified(k, g.signed, g.certs, qc2);
    CertificatesOfOneViewAgree(k, g.signed, qc1.kind, qc1.view, qc1.hash, qc2.hash);
  }

  /** A commit certificate stands on quorums of both earlier phases for the same node and view. */
  lemma Ladder(k: Cluster, events: seq<Event>, states: seq<Global>, i: nat, qc: QC)
    requires k.Tolerable() && Run(k, events, states) && i <= |events| && Verifies(k.n, states[i].certs, qc)
    ensures qc.kind == Commit ==> Certified(k, states[i].signed, PreCommit, qc.view, qc.hash)
    ensures qc.kind == Commit || qc.kind == PreCommit ==> Certified(k, states[i].signed, Prepare, qc.view, qc.hash)
  {
    var g := states[i];
    RunKeeps(k, events, states, i);
    InvOrderly(k, g);
    VerifiedIsCertified(k, g.signed, g.certs, qc);
    CertificateLadder(k, g.signed, qc.view, qc.hash);
  }

  /** Theorem 2 of the protocol: two commit certificates never certify conflicting nodes. */
  lemma NoConflictingCommits(k: Cluster, events: seq<Event>, states: seq<Global>, i: nat, qc1: QC, qc2: QC)
    requires k.Tolerable() && ForwardRun(k, events, states) && i <= |events|
    requires qc1.kind == qc2.kind == Commit && Verifies(k.n, states[i].certs, qc1) && Verifies(k.n, states[i].certs, qc2)
    ensures Extends(qc1.hash, qc2.hash) || Extends(qc2.hash, qc1.hash)
  {
    var g := states[i];
    CalmRunKeeps(k, events, states, i);
    CalmGuarded(k, g);
    VerifiedIsCertified(k, g.signed, g.certs, qc1);
    VerifiedIsCertified(k, g.signed, g.certs, qc2);
    CommitsOnOneBranch(k, g.signed, g.early, qc1.view, qc1.hash, qc2.view, qc2.hash);
  }

  // ---------- execution ----------

  lemma {:induction false} RunGrows(k: Cluster, events: seq<Event>, states: seq<Global>, i: nat, j: nat)
    requires Run(k, events, states) && i <= j <= |events|
    ensures states[i].signed <= states[j].signed && states[i].nodes.Keys == states[j].nodes.Keys
    decreases j - i
  {
    if i < j {
      RunGrows(k, events, states, i, j - 1);
      assert Step(k, states[j - 1], events[j - 1], states[j]);
    }
  }

  /** What a replica executed by step `i` has a commit certificate at every later step. */
  lemma ExecutedIsCertified(k: Cluster, events: seq<Event>, states: seq<Global>, i: nat, j: nat, p: int)
    requires Run(k, events, states) && i <= j <= |events| && p in states[i].nodes
    ensures var h := states[i].nodes[p].lastExecuted; h == Genesis || exists view :: Certified(k, states[j].signed, Commit, view, h)
  {
    RunKeeps(k, events, states, i);
    RunGrows(k, events, states, i, j);
    assert NodeOk(k, states[i].signed, p, states[i].nodes[p]);
    StateOkGrows(k, states[i].signed, states[j].signed, states[i].nodes[p]);
  }

  lemma ExecutedRooted(k: Cluster, events: seq<Event>, states: seq<Global>, i: nat, p: int)
    requires Run(k, events, states) && i <= |events| && p in states[i].nodes
    ensures Extends(states[i].nodes[p].lastExecuted, Genesis)
  {
    RunKeeps(k, events, states, i);
    var s := states[i].nodes[p];
    assert NodeOk(k, states[i].signed, p, s);
    ClosedHoldsAncestors(s.tree, s.lastExecuted);
  }

  lemma ExecutedOnOneBranch(k: Cluster, events: seq<Event>, states: seq<Global>, i: nat, p: int, j: nat, q: int)
    requires k.Tolerable() && ForwardRun(k, events, states) && i <= j <= |events|
    requires p in states[i].nodes && q in states[j].nodes
    ensures var a, b := states[i].nodes[p].lastExecuted, states[j].nodes[q].lastExecuted; Extends(a, b) || Extends(b, a)
  {
    var a, b := states[i].nodes[p].lastExecuted, states[j].nodes[q].lastExecuted;
    ExecutedRooted(k, events, states, i, p);
    ExecutedRooted(k, events, states, j, q);
    ExecutedIsCertified(k, events, states, i, j, p);
    ExecutedIsCertified(k, events, states, j, j, q);
    if a != Genesis && b != Genesis {
      var w :| Certified(k, states[j].signed, Commit, w, a);
      var v :| Certified(k, states[j].signed, Commit, v, b);
      CalmRunKeeps(k, events, states, j);
      CalmGuarded(k, states[j]);
      CommitsOnOneBranch(k, states[j].signed, states[j].early, w, a, v, b);
    }
  }

  predicate PrefixComparable(a: seq<Command>, b: seq<Command>) {
    if |a| <= |b| then a == b[..|a|] else b == a[..|b|]
  }

  /** The command sequences executed by correct replicas, at any two moments, are prefixes of one another. */
  lemma ExecutedChainsComparable(k: Cluster, events: seq<Event>, states: seq<Global>, i: nat, p: int, j: nat, q: int)
    requires k.Tolerable() && ForwardRun(k, events, states) && i <= |events| && j <= |events|
    requires p in states[i].nodes && q in states[j].nodes
    ensures PrefixComparable(Path(states[i].nodes[p].lastExecuted), Path(states[j].nodes[q].lastExecuted))
  {
    var a, b := states[i].nodes[p].lastExecuted, states[j].nodes[q].lastExecuted;
    if i <= j {
      ExecutedOnOneBranch(k, events, states, i, p, j, q);
    } else {
      ExecutedOnOneBranch(k, events, states, j, q, i, p);
    }
    if Extends(a, b) {
      AncestorPathIsPrefix(a, b);
    } else {
      AncestorPathIsPrefix(b, a);
    }
  }

  /** The bank of a replica is the fold of the executed branch without repeated command IDs. */
  lemma ExecutionIsFold(k: Cluster, events: seq<Event>, states: seq<Global>, i: nat, p: int)
    requires Run(k, events, states) && i <= |events| && p in states[i].nodes
    ensures var s := states[i].nodes[p];
            && s.ledger.bank == After(FirstOccurrences(Path(s.lastExecuted)))
            && s.ledger.seen == Ids(Path(s.lastExecuted)) == Ids(FirstOccurrences(Path(s.lastExecuted)))
    ensures var run := FirstOccurrences(Path(states[i].nodes[p].lastExecuted));
            forall a, b :: 0 <= a < b < |run| ==> run[a].id != run[b].id
  {
    RunKeeps(k, events, states, i);
    var s := states[i].nodes[p];
    assert NodeOk(k, states[i].signed, p, s);
    ApplyingIsFolding(Path(s.lastExecuted));
    FirstOccurrencesHaveDistinctIds(Path(s.lastExecuted));
  }

  lemma ActionProlongs(k: Cluster, g: Global, e: Event, g': Global, p: int)
    requires Inv(k, g) && Step(k, g, e, g') && p in g.nodes
    ensures p in g'.nodes && Extends(g'.nodes[p].lastExecuted, g.nodes[p].lastExecuted)
  {
    if e.Act? && e.p == p {
      assert NodeOk(k, g.signed, p, g.nodes[p]);
      var c, c' := SceneOf(g, p), e.after;
      match e.a {
        case Handle(msg, at) =>
          if msg.sender == Leader(k.n, msg.view) {
            match msg.kind {
              case Prepare => PrepareEffect(k.n, c, msg);
              case PreCommit => if PhaseOk(k.n, c, msg, Prepare) { PreCommitEffect(k.n, c, msg); }
              case Commit => if PhaseOk(k.n, c, msg, PreCommit) { CommitEffect(k.n, c, msg); }
              case Decide => if PhaseOk(k.n, c, msg, Commit) { DecideEffect(k.n, c, msg); }
              case NewView =>
            }
          }
        case Count(msg) => CountEffect(k.n, c, msg);
        case Propose(high) => ProposeEffect(k.n, c, high);
        case _ =>
      }
    }
  }

  /** The last executed node only ever moves to a descendant. */
  lemma {:induction false} ExecutedOnlyProlonged(k: Cluster, events: seq<Event>, states: seq<Global>, i: nat, j: nat, p: int)
    requires Run(k, events, states) && i <= j <= |events| && p in states[i].nodes
    ensures p in states[j].nodes && Extends(states[j].nodes[p].lastExecuted, states[i].nodes[p].lastExecuted)
    decreases j - i
  {
    if i < j {
      ExecutedOnlyProlonged(k, events, states, i, j - 1, p);
      OneStepProlongs(k, events, states, j, p);
      ExtendsTransitive(states[j].nodes[p].lastExecuted, states[j - 1].nodes[p].lastExecuted, states[i].nodes[p].lastExecuted);
    }
  }

  lemma OneStepProlongs(k: Cluster, events: seq<Event>, states: seq<Global>, j: nat, p: int)
    requires Run(k, events, states) && 0 < j <= |events| && p in states[j - 1].nodes
    ensures p in states[j].nodes && Extends(states[j].nodes[p].lastExecuted, states[j - 1].nodes[p].lastExecuted)
  {
    RunKeeps(k, events, states, j - 1);
    ActionProlongs(k, states[j - 1], events[j - 1], states[j], p);
  }

  /** The bank of every replica keeps its money while the executed loans fit the 64-bit range. */
  lemma MoneyConserved(k: Cluster, events: seq<Event>, states: seq<Global>, i: nat, p: int)
    requires Run(k, events, states) && i <= |events| && p in states[i].nodes
    requires INITIAL_MONEY + Requested(FirstOccurrences(Path(states[i].nodes[p].lastExecuted))) <= MAX
    ensures Sound(states[i].nodes[p].ledger.bank)
  {
    ExecutionIsFold(k, events, states, i, p);
    ModestLoansKeepSound(FirstOccurrences(Path(states[i].nodes[p].lastExecuted)));
  }

  // ---------- trees ----------

  /** Every tree is closed under parents, and each of its nodes leads to the genesis node without a cycle. */
  lemma TreesSound(k: Cluster, events: seq<Event>, states: seq<Global>, i: nat, p: int)
    requires Run(k, events, states) && i <= |events| && p in states[i].nodes
    ensures var tree := states[i].nodes[p].tree;
            Closed(tree) && forall h :: h in tree ==> Extends(h, Genesis) && !Extends(tree[h].parent, h)
  {
    RunKeeps(k, events, states, i);
    assert NodeOk(k, states[i].signed, p, states[i].nodes[p]);
    var tree := states[i].nodes[p].tree;
    forall h | h in tree ensures Extends(h, Genesis) && !Extends(tree[h].parent, h) {
      ClosedHoldsAncestors(tree, h);
      ClosedIsAcyclic(tree, h);
    }
  }

  // ---------- the leader's certificates ----------

  /** A vote that completes a quorum always yields a certificate, and the message that announces it passes
      the check of every replica that can obtain the node. */
  lemma FullQuorumIsAnnounced(k: Cluster, events: seq<Event>, states: seq<Global>, i: nat, p: int, c: Scene, key: Key, share: Share)
    requires Run(k, events, states) && i <= |events| && p in states[i].nodes && c == SceneOf(states[i], p)
    requires key.kind == Prepare || key.kind == PreCommit || key.kind == Commit
    requires ShareOk(k.n, share, key.kind, key.view, key.hash) && key !in c.s.formed && share.signer !in VotesFor(c.s, key)
    requires |VotesFor(c.s, key)| + 1 >= QuorumSize(k.n)
    ensures var c' := VoteCounted(k.n, c, key, share);
            && key in c'.s.formed && |c'.s.outbox| == |c.s.outbox| + 1 && c'.s.outbox[|c.s.outbox|].ToAll?
            && var news := c'.s.outbox[|c.s.outbox|].msg;
               && news.kind == NextKind(key.kind) && news.view == key.view && Target(news) == key.hash
               && forall d: Scene :: d.certs == c'.certs && CanEnsure(d, key.hash) ==> PhaseOk(k.n, d, news, key.kind)
  {
    RunKeeps(k, events, states, i);
    assert NodeOk(k, states[i].signed, p, c.s);
    var shares := VotesFor(c.s, key)[share.signer := share];
    assert |shares| == |VotesFor(c.s, key)| + 1;
    assert SharesOk(k.n, shares, key.kind, key.view, key.hash);
    CombinedVerifies(k.n, c.certs, Record(key.kind, key.view, key.hash, shares), QC(key.kind, key.view, key.hash, OtherToken("")));
  }
}
