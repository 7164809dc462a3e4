/** Runs of the sticky-lock Tendermint: standard nodes handle proposals of any origin, delivered votes and
    timeouts in any order; faulty members vote as they like under their own identity. */
module StickyRuns {
  import opened Quorums
  import opened LockedVoting
  import opened StickyTendermint

  datatype World = World(n: nat, faulty: set<int>)
  {
    function El(): Electorate {
      Electorate(Ones(n), QuorumOf(n), faulty)
    }

    predicate Correct(p: int) {
      0 <= p < n && p !in faulty
    }

    /** Fewer than a third of the members are faulty. */
    ghost predicate Tolerable() {
      faulty <= Members(n) && 3 * |faulty| < n
    }
  }

  /** `decided` records which node committed which value at which height. */
  datatype Global = Global(nodes: map<int, NodeState>, sent: set<Ballot>, decided: set<(int, int, string)>)

  datatype Event =
    | Offer(p: int, proposal: Proposal)
    | Receive(p: int, vote: Ballot, block: string)
    | Expire(p: int, block: string)
    | Inject(vote: Ballot)

  /** Every node starts round 0 of height 1 as soon as it exists. */
  ghost predicate Init(w: World, g: Global) {
    && (forall p :: p in g.nodes <==> w.Correct(p))
    && (forall p :: p in g.nodes ==> g.nodes[p] == StartedRound(StickyTendermint.NewNode(p), 0))
    && g.sent == {} && g.decided == {}
  }

  function After(w: World, g: Global, e: Event): NodeState
    requires w.n > 0 && !e.Inject? && e.p in g.nodes
  {
    match e
    case Offer(p, proposal) => ProposalHandled(w.n, g.nodes[p], proposal)
    case Receive(p, vote, _) => VoteHandled(w.n, g.nodes[p], vote)
    case Expire(p, _) => TimedOut(g.nodes[p])
  }

  function Out(w: World, g: Global, e: Event): Option<Message>
    requires w.n > 0 && !e.Inject? && e.p in g.nodes
  {
    match e
    case Offer(p, proposal) => ProposalOut(w.n, g.nodes[p], proposal)
    case Receive(p, vote, block) => VoteOut(w.n, g.nodes[p], vote, block)
    case Expire(p, block) => TimedOutOut(w.n, g.nodes[p], block)
  }

  function Ballots(out: Option<Message>): set<Ballot> {
    if out.Some? && out.value.VoteMsg? then {out.value.vote} else {}
  }

  function Decisions(w: World, g: Global, e: Event): set<(int, int, string)>
    requires !e.Inject? && e.p in g.nodes
  {
    if e.Receive? && CommittedBy(w.n, g.nodes[e.p], e.vote).Some?
    then {(e.p, g.nodes[e.p].height, CommittedBy(w.n, g.nodes[e.p], e.vote).value)}
    else {}
  }

  ghost predicate Step(w: World, g: Global, e: Event, g': Global) {
    && w.n > 0
    && if e.Inject? then
         0 <= e.vote.sender < w.n && e.vote.sender in w.faulty && g' == g.(sent := g.sent + {e.vote})
       else
         && e.p in g.nodes && (e.Receive? ==> e.vote in g.sent)
         && g' == Global(g.nodes[e.p := After(w, g, e)], g.sent + Ballots(Out(w, g, e)), g.decided + Decisions(w, g, e))
  }

  ghost predicate Run(w: World, events: seq<Event>, states: seq<Global>) {
    && |states| == |events| + 1 && Init(w, states[0])
    && forall i :: 0 <= i < |events| ==> Step(w, states[i], events[i], states[i + 1])
  }

  // ---------- counting ----------

  /** With fewer than a third faulty, any two quorums share a correct node. */
  lemma ThirdOverlaps(w: World)
    requires w.Tolerable()
    ensures w.El().Overlapping()
  {
    PowerOfOnes(w.faulty, w.n);
    TotalOfOnes(w.n);
    assert w.faulty * Members(w.n) == w.faulty;
    BoundOverlaps(w.El());
  }

  /** The table holds votes that were sent in this phase, height and round, filed under their senders. */
  ghost predicate TableOk(w: World, sent: set<Ballot>, table: map<int, Ballot>, phase: Phase, height: int, round: int) {
    forall id :: id in table ==>
      && table[id] in sent && table[id].sender == id && 0 <= id < w.n
      && table[id].phase == phase && table[id].height == height && table[id].round == round
  }

  lemma TallyIsQuorum(w: World, sent: set<Ballot>, table: map<int, Ballot>, phase: Phase, height: int, round: int, value: Option<string>)
    requires TableOk(w, sent, table, phase, height, round) && Tally(table, value) >= QuorumOf(w.n)
    ensures Quorum(w.El(), sent, phase, height, round, value)
  {
    var ids := set id | id in table && table[id].value == value;
    var voters := Voters(sent, phase, height, round, value);
    PowerOfOnes(voters, w.n);
    forall id | id in ids ensures id in voters * Members(w.n) {
      assert table[id] in sent;
    }
    SubsetSize(ids, voters * Members(w.n));
  }

  // ---------- the invariant ----------

  /** What `p` sent belongs to a height, round and step that it has reached. */
  ghost predicate Reached(sent: set<Ballot>, p: int, s: NodeState) {
    forall b :: b in sent && b.sender == p ==>
      || b.height < s.height
      || (b.height == s.height && b.round < s.round)
      || (&& b.height == s.height && b.round == s.round
          && (if b.phase == Prevote then s.step != Propose else s.step == PrecommitStep || s.step == Commit))
  }

  ghost predicate TablesOk(w: World, sent: set<Ballot>, s: NodeState) {
    && TableOk(w, sent, VotesAt(s, s.round).prevotes, Prevote, s.height, s.round)
    && TableOk(w, sent, VotesAt(s, s.round).precommits, Precommit, s.height, s.round)
  }

  /** The lock was taken in an earlier step, on a quorum of prevotes, and is as recent as every value that
      `p` precommitted at this height. */
  ghost predicate LockOk(w: World, sent: set<Ballot>, p: int, s: NodeState) {
    && (s.lockedValue.Some? <==> s.lockedRound.Some?)
    && (s.lockedRound.Some? ==>
          && s.lockedRound.value <= s.round
          && (s.lockedRound.value == s.round ==> s.step == PrecommitStep || s.step == Commit)
          && Quorum(w.El(), sent, Prevote, s.height, s.lockedRound.value, s.lockedValue))
    && forall b :: b in sent && b.sender == p && b.phase == Precommit && b.height == s.height && b.value.Some?
                   ==> s.lockedRound.Some? && b.round <= s.lockedRound.value
  }

  ghost predicate VotesOk(w: World, sent: set<Ballot>, p: int) {
    && PrevotesOnce(sent, p) && PrecommitsProved(w.El(), sent, p)
    && forall height :: LocksRespected(w.El(), sent, p, height)
  }

  ghost predicate NodeOk(w: World, sent: set<Ballot>, p: int, s: NodeState) {
    && s.id == p && Reached(sent, p, s) && TablesOk(w, sent, s) && LockOk(w, sent, p, s) && VotesOk(w, sent, p)
  }

  ghost predicate Inv(w: World, g: Global) {
    && (forall p :: p in g.nodes <==> w.Correct(p))
    && (forall b :: b in g.sent ==> 0 <= b.sender < w.n)
    && (forall p :: p in g.nodes ==> NodeOk(w, g.sent, p, g.nodes[p]))
    && (forall p, h, v :: (p, h, v) in g.decided ==> exists r :: Quorum(w.El(), g.sent, Precommit, h, r, Some(v)))
  }

  lemma InvDisciplined(w: World, g: Global, height: int)
    requires Inv(w, g)
    ensures Disciplined(w.El(), g.sent, height)
  {
    forall p | w.El().Correct(p)
      ensures PrevotesOnce(g.sent, p) && PrecommitsProved(w.El(), g.sent, p) && LocksRespected(w.El(), g.sent, p, height)
    {
      assert w.Correct(p);
      assert NodeOk(w, g.sent, p, g.nodes[p]);
    }
  }

  // ---------- more votes ----------

  lemma ProvedBetweenGrows(w: World, sent: set<Ballot>, more: set<Ballot>, height: int, low: int, high: int, value: Option<string>)
    requires sent <= more && ProvedBetween(w.El(), sent, height, low, high, value)
    ensures ProvedBetween(w.El(), more, height, low, high, value)
  {
    var r :| low <= r < high && Quorum(w.El(), sent, Prevote, height, r, value);
    QuorumGrows(w.El(), sent, more, Prevote, height, r, value);
  }

  lemma VotesOkGrows(w: World, sent: set<Ballot>, more: set<Ballot>, p: int)
    requires sent <= more && VotesOk(w, sent, p) && forall b :: b in more && b.sender == p ==> b in sent
    ensures VotesOk(w, more, p)
  {
    forall b | b in more && b.sender == p && b.phase == Precommit && b.value.Some?
      ensures Quorum(w.El(), more, Prevote, b.height, b.round, b.value)
    {
      QuorumGrows(w.El(), sent, more, Prevote, b.height, b.round, b.value);
    }
    forall a, b | && a in more && b in more && a.sender == b.sender == p && a.height == b.height && a.phase == Precommit
                  && a.value.Some? && b.phase == Prevote && b.value.Some? && a.round < b.round
      ensures ProvedBetween(w.El(), more, a.height, a.round, b.round, b.value)
    {
      assert LocksRespected(w.El(), sent, p, a.height);
      ProvedBetweenGrows(w, sent, more, a.height, a.round, b.round, b.value);
    }
  }

  lemma NodeOkGrows(w: World, sent: set<Ballot>, more: set<Ballot>, p: int, s: NodeState)
    requires sent <= more && NodeOk(w, sent, p, s) && forall b :: b in more && b.sender == p ==> b in sent
    ensures NodeOk(w, more, p, s)
  {
    VotesOkGrows(w, sent, more, p);
    if s.lockedRound.Some? {
      QuorumGrows(w.El(), sent, more, Prevote, s.height, s.lockedRound.value, s.lockedValue);
    }
  }

  // ---------- votes of a correct node ----------

  /** A new prevote: the first in its round, and for a value only as the lock allows. */
  lemma PrevoteKeeps(w: World, sent: set<Ballot>, p: int, s: NodeState, value: Option<string>, s': NodeState)
    requires NodeOk(w, sent, p, s) && s.step == Propose
    requires value.Some? && s.lockedValue.Some? ==> s.lockedValue == value
    requires s' == s.(step := PrevoteStep, proposal := s'.proposal)
    ensures NodeOk(w, sent + {Ballot(Prevote, s.height, s.round, p, value)}, p, s')
  {
    var b := Ballot(Prevote, s.height, s.round, p, value);
    var more := sent + {b};
    if s.lockedRound.Some? {
      QuorumGrows(w.El(), sent, more, Prevote, s.height, s.lockedRound.value, s.lockedValue);
    }
    forall a, c | && a in more && c in more && a.sender == c.sender == p && a.height == c.height && a.phase == Precommit
                  && a.value.Some? && c.phase == Prevote && c.value.Some? && a.round < c.round
      ensures ProvedBetween(w.El(), more, a.height, a.round, c.round, c.value)
    {
      if c != b {
        assert LocksRespected(w.El(), sent, p, a.height);
        ProvedBetweenGrows(w, sent, more, a.height, a.round, c.round, c.value);
      } else {
        assert a.round <= s.lockedRound.value < s.round;
      }
    }
    PrecommitsStayProved(w, sent, more, p, b);
    assert VotesOk(w, more, p);
  }

  lemma PrecommitsStayProved(w: World, sent: set<Ballot>, more: set<Ballot>, p: int, b: Ballot)
    requires PrecommitsProved(w.El(), sent, p) && more == sent + {b}
    requires b.phase == Precommit && b.value.Some? ==> Quorum(w.El(), sent, Prevote, b.height, b.round, b.value)
    ensures PrecommitsProved(w.El(), more, p)
  {
    forall x | x in more && x.sender == p && x.phase == Precommit && x.value.Some?
      ensures Quorum(w.El(), more, Prevote, x.height, x.round, x.value)
    {
      QuorumGrows(w.El(), sent, more, Prevote, x.height, x.round, x.value);
    }
  }

  /** A new precommit: for nil, or for a value with a quorum of prevotes, which becomes the lock. */
  lemma PrecommitKeeps(w: World, sent: set<Ballot>, p: int, s: NodeState, value: Option<string>, s': NodeState)
    requires NodeOk(w, sent, p, s) && s.step == PrevoteStep
    requires value.Some? ==> Quorum(w.El(), sent, Prevote, s.height, s.round, value)
    requires s' == if value.Some? then s.(step := PrecommitStep, lockedValue := value, lockedRound := Some(s.round),
                                          validValue := value, validRound := Some(s.round))
                   else s.(step := PrecommitStep)
    ensures NodeOk(w, sent + {Ballot(Precommit, s.height, s.round, p, value)}, p, s')
  {
    var b := Ballot(Precommit, s.height, s.round, p, value);
    var more := sent + {b};
    if s'.lockedRound.Some? {
      QuorumGrows(w.El(), sent, more, Prevote, s.height, s'.lockedRound.value, s'.lockedValue);
    }
    forall a, c | && a in more && c in more && a.sender == c.sender == p && a.height == c.height && a.phase == Precommit
                  && a.value.Some? && c.phase == Prevote && c.value.Some? && a.round < c.round
      ensures ProvedBetween(w.El(), more, a.height, a.round, c.round, c.value)
    {
      assert LocksRespected(w.El(), sent, p, a.height);
      ProvedBetweenGrows(w, sent, more, a.height, a.round, c.round, c.value);
    }
    PrecommitsStayProved(w, sent, more, p, b);
    assert VotesOk(w, more, p);
  }

  lemma RoundKeeps(w: World, sent: set<Ballot>, p: int, s: NodeState, round: int)
    requires NodeOk(w, sent, p, s) && round > s.round
    ensures NodeOk(w, sent, p, StartedRound(s, round))
  {
  }

  lemma HeightKeeps(w: World, sent: set<Ballot>, p: int, s: NodeState)
    requires NodeOk(w, sent, p, s)
    ensures NodeOk(w, sent, p, StartedRound(NextHeight(s), 0))
  {
  }

  lemma CollectKeeps(w: World, sent: set<Ballot>, p: int, s: NodeState, v: Ballot)
    requires NodeOk(w, sent, p, s) && VoteFits(s, v) && v in sent && 0 <= v.sender < w.n
    ensures NodeOk(w, sent, p, Collected(s, v))
  {
  }

  // ---------- steps ----------

  ghost predicate ActsOk(w: World, g: Global, e: Event)
    requires w.n > 0 && !e.Inject? && e.p in g.nodes
  {
    && NodeOk(w, g.sent + Ballots(Out(w, g, e)), e.p, After(w, g, e))
    && (forall b :: b in Ballots(Out(w, g, e)) ==> b.sender == e.p)
    && (forall d :: d in Decisions(w, g, e) ==> exists r :: Quorum(w.El(), g.sent, Precommit, d.1, r, Some(d.2)))
  }

  lemma OfferOk(w: World, g: Global, e: Event)
    requires w.n > 0 && Inv(w, g) && e.Offer? && e.p in g.nodes
    ensures ActsOk(w, g, e)
  {
    var s := g.nodes[e.p];
    assert NodeOk(w, g.sent, e.p, s);
    if ProposalFits(w.n, s, e.proposal) {
      PrevoteKeeps(w, g.sent, e.p, s, PrevoteFor(w.n, s, e.proposal), After(w, g, e));
    } else {
      assert g.sent + {} == g.sent;
    }
  }

  lemma ExpireOk(w: World, g: Global, e: Event)
    requires w.n > 0 && Inv(w, g) && e.Expire? && e.p in g.nodes
    ensures ActsOk(w, g, e)
  {
    var s := g.nodes[e.p];
    assert NodeOk(w, g.sent, e.p, s);
    assert g.sent + {} == g.sent;
    match s.step {
      case Propose => PrevoteKeeps(w, g.sent, e.p, s, None, After(w, g, e));
      case PrevoteStep => PrecommitKeeps(w, g.sent, e.p, s, None, After(w, g, e));
      case PrecommitStep => RoundKeeps(w, g.sent, e.p, s, s.round + 1);
      case Commit => HeightKeeps(w, g.sent, e.p, s);
    }
  }

  lemma PrevoteQuorumOk(w: World, sent: set<Ballot>, p: int, s: NodeState, v: Ballot)
    requires NodeOk(w, sent, p, s) && v in sent && 0 <= v.sender < w.n && PrevotesFull(w.n, s, v)
    ensures NodeOk(w, sent + {Ballot(Precommit, s.height, s.round, p, v.value)}, p, VoteHandled(w.n, s, v))
  {
    var s1 := Collected(s, v);
    CollectKeeps(w, sent, p, s, v);
    TallyIsQuorum(w, sent, VotesAt(s1, s.round).prevotes, Prevote, s.height, s.round, v.value);
    PrecommitKeeps(w, sent, p, s1, v.value, VoteHandled(w.n, s, v));
  }

  lemma PrecommitQuorumOk(w: World, sent: set<Ballot>, p: int, s: NodeState, v: Ballot)
    requires NodeOk(w, sent, p, s) && v in sent && 0 <= v.sender < w.n && PrecommitsFull(w.n, s, v)
    ensures NodeOk(w, sent, p, VoteHandled(w.n, s, v)) && Quorum(w.El(), sent, Precommit, s.height, s.round, v.value)
  {
    var s1 := Collected(s, v);
    CollectKeeps(w, sent, p, s, v);
    TallyIsQuorum(w, sent, VotesAt(s1, s.round).precommits, Precommit, s.height, s.round, v.value);
    if v.value.None? {
      RoundKeeps(w, sent, p, s1, s1.round + 1);
    }
  }

  lemma ReceiveOk(w: World, g: Global, e: Event)
    requires w.n > 0 && Inv(w, g) && e.Receive? && e.p in g.nodes && e.vote in g.sent
    ensures ActsOk(w, g, e)
  {
    var s, v := g.nodes[e.p], e.vote;
    assert NodeOk(w, g.sent, e.p, s);
    assert g.sent + {} == g.sent;
    if PrevotesFull(w.n, s, v) {
      PrevoteQuorumOk(w, g.sent, e.p, s, v);
    } else if PrecommitsFull(w.n, s, v) {
      PrecommitQuorumOk(w, g.sent, e.p, s, v);
    } else if VoteFits(s, v) {
      CollectKeeps(w, g.sent, e.p, s, v);
    }
  }

  lemma StepKeeps(w: World, g: Global, e: Event, g': Global)
    requires Inv(w, g) && Step(w, g, e, g')
    ensures Inv(w, g')
  {
    match e {
      case Offer(_, _) => OfferOk(w, g, e);
      case Receive(_, _, _) => ReceiveOk(w, g, e);
      case Expire(_, _) => ExpireOk(w, g, e);
      case Inject(_) =>
    }
    OthersKeep(w, g, e, g');
    DecisionsKeep(w, g, e, g');
  }

  lemma OthersKeep(w: World, g: Global, e: Event, g': Global)
    requires Inv(w, g) && Step(w, g, e, g') && (!e.Inject? ==> ActsOk(w, g, e))
    ensures forall p :: p in g'.nodes ==> NodeOk(w, g'.sent, p, g'.nodes[p])
  {
    forall p | p in g'.nodes ensures NodeOk(w, g'.sent, p, g'.nodes[p]) {
      if e.Inject? || p != e.p {
        assert w.Correct(p);
        NodeOkGrows(w, g.sent, g'.sent, p, g.nodes[p]);
      }
    }
  }

  lemma DecisionsKeep(w: World, g: Global, e: Event, g': Global)
    requires Inv(w, g) && Step(w, g, e, g') && (!e.Inject? ==> ActsOk(w, g, e))
    ensures forall p, h, v :: (p, h, v) in g'.decided ==> exists r :: Quorum(w.El(), g'.sent, Precommit, h, r, Some(v))
  {
    forall p, h, v | (p, h, v) in g'.decided ensures exists r :: Quorum(w.El(), g'.sent, Precommit, h, r, Some(v)) {
      var d := (p, h, v);
      assert d.1 == h && d.2 == v;
      var r :| Quorum(w.El(), g.sent, Precommit, h, r, Some(v));
      QuorumGrows(w.El(), g.sent, g'.sent, Precommit, h, r, Some(v));
    }
  }

  lemma {:induction false} RunKeeps(w: World, events: seq<Event>, states: seq<Global>, i: nat)
    requires Run(w, events, states) && i <= |events|
    ensures Inv(w, states[i])
  {
    if i == 0 {
      forall p | p in states[0].nodes ensures NodeOk(w, states[0].sent, p, states[0].nodes[p]) {
      }
    } else {
      RunKeeps(w, events, states, i - 1);
      StepKeeps(w, states[i - 1], events[i - 1], states[i]);
    }
  }

  // ---------- results ----------

  /** No two nodes commit different values at one height, in any run with fewer than a third faulty. */
  lemma Agreement(w: World, events: seq<Event>, states: seq<Global>, i: nat, p: int, q: int, height: int, v: string, u: string)
    requires w.Tolerable() && Run(w, events, states) && i <= |events|
    requires (p, height, v) in states[i].decided && (q, height, u) in states[i].decided
    ensures v == u
  {
    var g := states[i];
    RunKeeps(w, events, states, i);
    ThirdOverlaps(w);
    InvDisciplined(w, g, height);
    var r1 :| Quorum(w.El(), g.sent, Precommit, height, r1, Some(v));
    var r2 :| Quorum(w.El(), g.sent, Precommit, height, r2, Some(u));
    PrecommitsAgree(w.El(), g.sent, height, r1, v, r2, u);
  }

  /** After a commit, no later round of the height gathers a prevote quorum for another value. */
  lemma CommitIsFinal(w: World, events: seq<Event>, states: seq<Global>, i: nat, p: int, height: int, v: string)
    requires w.Tolerable() && Run(w, events, states) && i <= |events| && (p, height, v) in states[i].decided
    ensures exists r :: Quorum(w.El(), states[i].sent, Precommit, height, r, Some(v)) &&
              forall later, u :: later >= r && Quorum(w.El(), states[i].sent, Prevote, height, later, Some(u)) ==> u == v
  {
    var g := states[i];
    RunKeeps(w, events, states, i);
    ThirdOverlaps(w);
    InvDisciplined(w, g, height);
    var r :| Quorum(w.El(), g.sent, Precommit, height, r, Some(v));
    forall later, u | later >= r && Quorum(w.El(), g.sent, Prevote, height, later, Some(u)) ensures u == v {
      PrecommittedStays(w.El(), g.sent, height, r, Some(v), later, Some(u));
    }
  }
}
