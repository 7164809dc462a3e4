/** What the configuration check leaves open. The quorum is fixed at 2f+1, while the check only asks that the total
    power exceed 3f. If the correct nodes can be split into two parts that both are quorums together with the faulty
    nodes, one side decides in round 0, the other votes nil until a round that one of its own or a faulty node leads,
    and decides another value there. So agreement holds in every run exactly when there is no such split. */
module TendermintSplit {
  import opened Quorums
  import opened LockedVoting
  import opened RoundRobin
  import opened TendermintNode
  import opened TendermintRuns

  // ---------- reachable states ----------

  ghost predicate EndsIn(w: World, events: seq<Event>, states: seq<Global>, g: Global) {
    Run(w, events, states) && states[|events|] == g
  }

  ghost predicate Reachable(w: World, g: Global) {
    exists events, states :: EndsIn(w, events, states, g)
  }

  lemma Extend(w: World, g: Global, e: Event, g': Global)
    requires Reachable(w, g) && Step(w, g, e, g')
    ensures Reachable(w, g')
  {
    var events, states :| EndsIn(w, events, states, g);
    var events', states' := events + [e], states + [g'];
    forall i | 0 <= i < |events'| ensures Step(w, states'[i], events'[i], states'[i + 1]) {
      if i < |events| {
        assert states'[i] == states[i] && states'[i + 1] == states[i + 1] && events'[i] == events[i];
      }
    }
    assert EndsIn(w, events', states', g');
  }

  /** The nodes outside `moved` are untouched, and everything sent before is still there. */
  ghost predicate Later(w: World, g: Global, g': Global, moved: set<int>) {
    && Reachable(w, g') && g'.nodes.Keys == g.nodes.Keys && g.sent <= g'.sent
    && forall p :: p in g.nodes && p !in moved ==> g'.nodes[p] == g.nodes[p] && (p in g'.begun <==> p in g.begun)
  }

  lemma LaterTwice(w: World, g: Global, g1: Global, g2: Global, a: set<int>, b: set<int>)
    requires Later(w, g, g1, a) && Later(w, g1, g2, b)
    ensures Later(w, g, g2, a + b)
  {
  }

  /** One step of one node. */
  ghost predicate Moves(w: World, g: Global, p: int, s: NodeState, g': Global) {
    Later(w, g, g', {p}) && p in g'.nodes && g'.nodes[p] == s && p in g'.begun
  }

  lemma Take(w: World, g: Global, e: Event) returns (g': Global)
    requires w.c.power != [] && Reachable(w, g) && !e.Inject? && MayHappen(w, g, e)
    ensures Moves(w, g, e.p, After(w, g, e), g') && forall m :: m in Out(w, g, e) ==> m in g'.sent
  {
    g' := Global(g.nodes[e.p := After(w, g, e)], g.begun + {e.p}, g.sent + set m | m in Out(w, g, e));
    Extend(w, g, e, g');
  }

  lemma Fire(w: World, g: Global, p: int, f: Firing) returns (g': Global)
    requires w.c.power != [] && Reachable(w, g) && p in g.nodes && p in g.begun && f.pre == g.nodes[p] && FiringOk(w.c, f)
    ensures Moves(w, g, p, f.post, g') && forall m :: m in f.out ==> m in g'.sent
  {
    g' := Take(w, g, Apply(p, f));
  }

  lemma {:induction false} HearAll(w: World, g: Global, p: int, msgs: seq<Msg>) returns (g': Global)
    requires w.c.power != [] && Reachable(w, g) && p in g.nodes && p in g.begun && forall m :: m in msgs ==> m in g.sent
    ensures Moves(w, g, p, g.nodes[p].(log := g.nodes[p].log + msgs), g')
  {
    if msgs == [] {
      g' := g;
      assert g.nodes[p].log + msgs == g.nodes[p].log;
    } else {
      var init, last := msgs[..|msgs| - 1], msgs[|msgs| - 1];
      var g1 := HearAll(w, g, p, init);
      g' := Take(w, g1, Receive(p, last));
      assert g.nodes[p].log + init + [last] == g.nodes[p].log + msgs;
      LaterTwice(w, g, g1, g', {p}, {p});
    }
  }

  lemma {:induction false} InjectAll(w: World, g: Global, msgs: seq<Msg>) returns (g': Global)
    requires w.c.power != [] && Reachable(w, g) && forall m :: m in msgs ==> m.sender !in g.nodes
    ensures Later(w, g, g', {}) && forall m :: m in msgs ==> m in g'.sent
  {
    g' := g;
    if msgs != [] {
      var last := msgs[|msgs| - 1];
      var g1 := InjectAll(w, g, msgs[..|msgs| - 1]);
      g' := g1.(sent := g1.sent + {last});
      Extend(w, g1, Inject(last), g');
    }
  }

  // ---------- votes of one side ----------

  /** The vote of `p` at height 0. */
  function Cast(p: int, phase: Phase, round: int, vid: Option<string>): Msg {
    Msg(Vote(phase), 0, round, p, None, vid, -1)
  }

  /** Every member of the side has cast this vote. */
  ghost predicate AllCast(sent: set<Msg>, side: set<int>, phase: Phase, round: int, vid: Option<string>) {
    forall p :: p in side ==> Cast(p, phase, round, vid) in sent
  }

  lemma VotesOfSide(side: set<int>, phase: Phase, round: int, vid: Option<string>) returns (msgs: seq<Msg>)
    ensures forall m :: m in msgs <==> exists p :: p in side && m == Cast(p, phase, round, vid)
  {
    var order := Listing(side);
    msgs := seq(|order|, i requires 0 <= i < |order| => Cast(order[i], phase, round, vid));
    forall p | p in side ensures Cast(p, phase, round, vid) in msgs {
      var i :| 0 <= i < |order| && order[i] == p;
      assert msgs[i] == Cast(p, phase, round, vid);
    }
  }

  ghost predicate IsSide(w: World, side: set<int>) {
    Power(side, w.c.power) >= w.c.Quorum()
  }

  lemma SideIsQuorum(w: World, log: seq<Msg>, side: set<int>, phase: Phase, round: int, vid: Option<string>, wanted: Wanted)
    requires IsSide(w, side) && (forall p :: p in side ==> Cast(p, phase, round, vid) in log) && (wanted.Exactly? ==> wanted.vid == vid)
    ensures HasQuorum(w.c, log, phase, 0, round, wanted)
  {
    var voters := VotersIn(log, phase, 0, round, wanted);
    forall p | p in side ensures p in voters {
      assert Counts(Cast(p, phase, round, vid), phase, 0, round, wanted);
    }
    PowerMonotone(side, voters, w.c.power);
  }

  // ---------- the stages of a node ----------

  datatype Stage = NotBegun | Begun(round: int) | NilPrevoted(round: int) | NilPrecommitted(round: int) | Prevoted(round: int) | Precommitted(round: int)

  /** At height 0 without a lock or a decision, having heard of no precommit for a value. */
  ghost predicate Open(s: NodeState, p: int, round: int, step: StepName) {
    && s.id == p && s.h == 0 && s.round == round && s.step == step && !s.done && s.decisions == map[]
    && s.lockedRound == -1 && s.validValue == None && s.validRound == -1 && s.firedLock == {} && NilPrecommits(s.log)
  }

  ghost predicate NilPrecommits(log: seq<Msg>) {
    forall m :: m in log && m.kind == Vote(Precommit) ==> m.vid == None
  }

  ghost predicate VotesOnly(log: seq<Msg>) {
    forall m :: m in log ==> m.kind.Vote?
  }

  function ProposalIn(c: Config, round: int, v: string): Msg
    requires c.power != []
  {
    Msg(Proposal, 0, round, c.Proposer(0, round), Some(v), Some(v), -1)
  }

  /** The precommit timer was armed in earlier rounds only. */
  ghost predicate FiredBelow(s: NodeState, round: int) {
    forall key :: key in s.firedPrecommit ==> key.1 < round
  }

  /** A node of a side that decides `v`. */
  ghost predicate At(c: Config, s: NodeState, p: int, st: Stage, v: string)
    requires c.power != []
  {
    match st
    case NotBegun => s == NewNode(p)
    case Begun(r) =>
      && Open(s, p, r, ProposeStep) && VotesOnly(s.log)
      && FiredBelow(s, r) && (c.Proposer(0, r) != p ==> s.timers == [Timer(ProposeTimer, 0, r)])
    case NilPrevoted(r) => Open(s, p, r, PrevoteStep) && VotesOnly(s.log) && s.timers == [] && FiredBelow(s, r)
    case NilPrecommitted(r) => Open(s, p, r, PrecommitStep) && VotesOnly(s.log) && s.timers == [] && FiredBelow(s, r)
    case Prevoted(r) => Open(s, p, r, PrevoteStep) && FindProposal(c, s.log, 0, r) == Some(ProposalIn(c, r, v))
    case Precommitted(r) =>
      && s.id == p && s.h == 0 && s.round == r && s.decisions == map[] && NilPrecommits(s.log)
      && ProposalIn(c, r, v) in s.log
  }

  /** What a node has said on reaching a stage. */
  ghost predicate Said(c: Config, sent: set<Msg>, p: int, st: Stage, v: string)
    requires c.power != []
  {
    match st
    case NotBegun => true
    case Begun(r) => c.Proposer(0, r) == p ==> ProposalIn(c, r, v) in sent
    case NilPrevoted(r) => Cast(p, Prevote, r, None) in sent
    case NilPrecommitted(r) => Cast(p, Precommit, r, None) in sent
    case Prevoted(r) => Cast(p, Prevote, r, Some(v)) in sent
    case Precommitted(r) => Cast(p, Precommit, r, Some(v)) in sent
  }

  /** The next stage, and what must have been said before. */
  ghost predicate MayAdvance(w: World, sent: set<Msg>, side: set<int>, st: Stage, st': Stage, v: string)
    requires w.c.power != []
  {
    || (st == NotBegun && st' == Begun(0))
    || (st.Begun? && st' == Prevoted(st.round) && ProposalIn(w.c, st.round, v) in sent)
    || (st.Begun? && st' == NilPrevoted(st.round))
    || (st.NilPrevoted? && st' == NilPrecommitted(st.round) && AllCast(sent, side, Prevote, st.round, None))
    || (st.NilPrecommitted? && st' == Begun(st.round + 1) && AllCast(sent, side, Precommit, st.round, None))
    || (st.Prevoted? && st' == Precommitted(st.round) && AllCast(sent, side, Prevote, st.round, Some(v)))
  }

  ghost predicate HasBegun(g: Global, p: int, st: Stage) {
    p in g.begun <==> st != NotBegun
  }

  // ---------- from stage to stage ----------

  ghost predicate Advanced(w: World, g: Global, p: int, st: Stage, v: string, g': Global)
    requires w.c.power != []
  {
    && Later(w, g, g', {p}) && p in g'.nodes && p in g'.begun
    && At(w.c, g'.nodes[p], p, st, v) && Said(w.c, g'.sent, p, st, v)
  }

  ghost predicate Standing(w: World, g: Global, p: int, st: Stage, v: string)
    requires w.c.power != []
  {
    Reachable(w, g) && p in g.nodes && HasBegun(g, p, st) && At(w.c, g.nodes[p], p, st, v)
  }

  lemma Begins(w: World, g: Global, p: int, v: string) returns (g': Global)
    requires w.c.power != [] && Standing(w, g, p, NotBegun, v)
    ensures Advanced(w, g, p, Begun(0), v, g')
  {
    var e := Begin(p, v);
    g' := Take(w, g, e);
    if w.c.Proposer(0, 0) == p {
      assert ProposalIn(w.c, 0, v) in Out(w, g, e);
    }
  }

  lemma ShortIsValid(v: string)
    requires |v| == 1
    ensures IsValid(Some(v))
  {
    assert |"INVALID"| == 7;
  }

  lemma {:induction false} FindsAppended(c: Config, log: seq<Msg>, m: Msg, round: int)
    requires c.power != [] && IsProposalAt(c, m, 0, round) && forall x :: x in log ==> !IsProposalAt(c, x, 0, round)
    ensures FindProposal(c, log + [m], 0, round) == Some(m)
  {
    if log == [] {
      assert log + [m] == [m];
    } else {
      assert log[0] in log;
      FindsAppended(c, log[1..], m, round);
      assert (log + [m])[1..] == log[1..] + [m];
    }
  }

  lemma {:induction false} FindsInLonger(c: Config, log: seq<Msg>, more: seq<Msg>, round: int)
    requires c.power != [] && FindProposal(c, log, 0, round).Some?
    ensures FindProposal(c, log + more, 0, round) == FindProposal(c, log, 0, round)
  {
    if !IsProposalAt(c, log[0], 0, round) {
      FindsInLonger(c, log[1..], more, round);
      assert (log + more)[1..] == log[1..] + more;
    } else {
      assert (log + more)[0] == log[0];
    }
  }

  lemma Prevotes(w: World, g: Global, p: int, round: int, v: string) returns (g': Global)
    requires w.c.power != [] && Standing(w, g, p, Begun(round), v) && ProposalIn(w.c, round, v) in g.sent && |v| == 1
    ensures Advanced(w, g, p, Prevoted(round), v, g')
  {
    ShortIsValid(v);
    var m := ProposalIn(w.c, round, v);
    var g1 := HearAll(w, g, p, [m]);
    var s1 := g1.nodes[p];
    FindsAppended(w.c, g.nodes[p].log, m, round);
    var s := s1.(step := PrevoteStep);
    g' := Fire(w, g1, p, Firing(s1, ProposalInitial, 0, "", "", [VoteOf(s1, Prevote, Some(v))], s));
    assert VoteOf(s1, Prevote, Some(v)) == Cast(p, Prevote, round, Some(v));
    LaterTwice(w, g, g1, g', {p}, {p});
  }

  lemma HearSide(w: World, g: Global, p: int, side: set<int>, phase: Phase, round: int, vid: Option<string>) returns (g': Global, s: NodeState)
    requires w.c.power != [] && Reachable(w, g) && p in g.nodes && p in g.begun && AllCast(g.sent, side, phase, round, vid)
    ensures Moves(w, g, p, s, g') && s == g.nodes[p].(log := s.log) && g.nodes[p].log <= s.log
    ensures forall m :: m in s.log && m !in g.nodes[p].log ==> exists q :: m == Cast(q, phase, round, vid)
    ensures forall q :: q in side ==> Cast(q, phase, round, vid) in s.log
  {
    var msgs := VotesOfSide(side, phase, round, vid);
    g' := HearAll(w, g, p, msgs);
    s := g.nodes[p].(log := g.nodes[p].log + msgs);
  }

  lemma Precommits(w: World, g: Global, p: int, side: set<int>, round: int, v: string) returns (g': Global)
    requires w.c.power != [] && Standing(w, g, p, Prevoted(round), v) && |v| == 1
    requires IsSide(w, side) && AllCast(g.sent, side, Prevote, round, Some(v))
    ensures Advanced(w, g, p, Precommitted(round), v, g')
  {
    ShortIsValid(v);
    var g1, s1 := HearSide(w, g, p, side, Prevote, round, Some(v));
    SideIsQuorum(w, s1.log, side, Prevote, round, Some(v), Exactly(Some(v)));
    assert s1.log == g.nodes[p].log + s1.log[|g.nodes[p].log|..];
    FindsInLonger(w.c, g.nodes[p].log, s1.log[|g.nodes[p].log|..], round);
    g' := Fire(w, g1, p, Firing(s1, Lock, 0, "", "", LockedOut(s1, Some(v)), Locked(s1, Some(v))));
    assert LockedOut(s1, Some(v)) == [Cast(p, Precommit, round, Some(v))];
    LaterTwice(w, g, g1, g', {p}, {p});
  }

  lemma PrevotesNil(w: World, g: Global, p: int, round: int, v: string) returns (g': Global)
    requires w.c.power != [] && Standing(w, g, p, Begun(round), v) && w.c.Proposer(0, round) != p
    ensures Advanced(w, g, p, NilPrevoted(round), v, g')
  {
    var e := Expire(p, 0, v);
    assert g.nodes[p].timers[0] == Timer(ProposeTimer, 0, round);
    g' := Take(w, g, e);
    assert Cast(p, Prevote, round, None) in Out(w, g, e);
  }

  lemma PrecommitsNil(w: World, g: Global, p: int, side: set<int>, round: int, v: string) returns (g': Global)
    requires w.c.power != [] && Standing(w, g, p, NilPrevoted(round), v) && IsSide(w, side) && AllCast(g.sent, side, Prevote, round, None)
    ensures Advanced(w, g, p, NilPrecommitted(round), v, g')
  {
    var g1, s1 := HearSide(w, g, p, side, Prevote, round, None);
    SideIsQuorum(w, s1.log, side, Prevote, round, None, Exactly(None));
    g' := Fire(w, g1, p, Firing(s1, PrevoteNil, 0, "", "", [VoteOf(s1, Precommit, None)], s1.(step := PrecommitStep)));
    assert VoteOf(s1, Precommit, None) == Cast(p, Precommit, round, None);
    LaterTwice(w, g, g1, g', {p}, {p});
  }

  lemma EntersNext(w: World, g: Global, p: int, side: set<int>, round: int, v: string) returns (g': Global)
    requires w.c.power != [] && Standing(w, g, p, NilPrecommitted(round), v) && IsSide(w, side) && AllCast(g.sent, side, Precommit, round, None)
    ensures Advanced(w, g, p, Begun(round + 1), v, g')
  {
    var g1, s1 := HearSide(w, g, p, side, Precommit, round, None);
    SideIsQuorum(w, s1.log, side, Precommit, round, None, AnyValue);
    var s2 := ScheduledPrecommit(s1);
    var g2 := Fire(w, g1, p, Firing(s1, PrecommitAny, 0, "", "", [], s2));
    g' := LeavesRound(w, g2, p, s2, round, v);
    LaterTwice(w, g, g1, g2, {p}, {p});
    LaterTwice(w, g, g2, g', {p}, {p});
  }

  lemma LeavesRound(w: World, g: Global, p: int, s: NodeState, round: int, v: string) returns (g': Global)
    requires w.c.power != [] && Reachable(w, g) && p in g.nodes && p in g.begun && g.nodes[p] == s
    requires Open(s, p, round, PrecommitStep) && VotesOnly(s.log) && s.timers == [Timer(PrecommitTimer, 0, round)] && FiredBelow(s, round + 1)
    ensures Advanced(w, g, p, Begun(round + 1), v, g')
  {
    var e := Expire(p, 0, v);
    g' := Take(w, g, e);
    if w.c.Proposer(0, round + 1) == p {
      assert ProposalIn(w.c, round + 1, v) in Out(w, g, e);
    }
  }

  lemma OneAdvances(w: World, g: Global, p: int, side: set<int>, st: Stage, st': Stage, v: string) returns (g': Global)
    requires w.c.power != [] && Standing(w, g, p, st, v) && MayAdvance(w, g.sent, side, st, st', v) && IsSide(w, side) && |v| == 1
    requires st'.NilPrevoted? ==> w.c.Proposer(0, st'.round) != p
    ensures Advanced(w, g, p, st', v, g')
  {
    match st {
      case NotBegun => g' := Begins(w, g, p, v);
      case Begun(r) =>
        if st'.Prevoted? {
          g' := Prevotes(w, g, p, r, v);
        } else {
          g' := PrevotesNil(w, g, p, r, v);
        }
      case NilPrevoted(r) => g' := PrecommitsNil(w, g, p, side, r, v);
      case NilPrecommitted(r) => g' := EntersNext(w, g, p, side, r, v);
      case Prevoted(r) => g' := Precommits(w, g, p, side, r, v);
      case Precommitted(_) =>
    }
  }

  ghost predicate AllStanding(w: World, g: Global, members: set<int>, st: Stage, v: string)
    requires w.c.power != []
  {
    forall p :: p in members ==> Standing(w, g, p, st, v)
  }

  ghost predicate AllSaid(w: World, g: Global, members: set<int>, st: Stage, v: string)
    requires w.c.power != []
  {
    forall p :: p in members ==> Said(w.c, g.sent, p, st, v)
  }

  /** All members of a side go on to the next stage, one after the other. */
  lemma {:induction false} AllAdvance(w: World, g: Global, members: set<int>, side: set<int>, st: Stage, st': Stage, v: string) returns (g': Global)
    requires w.c.power != [] && Reachable(w, g) && AllStanding(w, g, members, st, v)
    requires MayAdvance(w, g.sent, side, st, st', v) && IsSide(w, side) && |v| == 1
    requires st'.NilPrevoted? ==> w.c.Proposer(0, st'.round) !in members
    ensures Later(w, g, g', members) && AllStanding(w, g', members, st', v) && AllSaid(w, g', members, st', v)
    decreases |members|
  {
    g' := g;
    if members != {} {
      NonEmpty(members);
      var p :| p in members;
      var rest := members - {p};
      var g1 := AllAdvance(w, g, rest, side, st, st', v);
      assert Standing(w, g, p, st, v);
      g' := OneAdvances(w, g1, p, side, st, st', v);
      LaterTwice(w, g, g1, g', rest, {p});
      assert rest + {p} == members;
      forall q | q in members ensures Standing(w, g', q, st', v) && Said(w.c, g'.sent, q, st', v) {
        if q != p {
          assert Standing(w, g1, q, st', v) && Said(w.c, g1.sent, q, st', v);
        }
      }
    }
  }

  /** A node that hears the precommits of its side decides. */
  lemma Decides(w: World, g: Global, p: int, side: set<int>, round: int, v: string) returns (g': Global)
    requires w.c.power != [] && Standing(w, g, p, Precommitted(round), v) && |v| == 1
    requires IsSide(w, side) && AllCast(g.sent, side, Precommit, round, Some(v))
    ensures Later(w, g, g', {p}) && p in g'.nodes && g'.nodes[p].decisions == map[0 := v]
  {
    ShortIsValid(v);
    var g1, s1 := HearSide(w, g, p, side, Precommit, round, Some(v));
    SideIsQuorum(w, s1.log, side, Precommit, round, Some(v), Exactly(Some(v)));
    forall r, u | r < round ensures !Decidable(w.c, s1.log, 0, r, u) {
      DecidableHasVote(w.c, s1.log, 0, r, u);
    }
    assert ProposalIn(w.c, round, v) in s1.log && IsProposalAt(w.c, ProposalIn(w.c, round, v), 0, round);
    assert MayDecide(w.c, s1, round, v);
    g' := Fire(w, g1, p, Firing(s1, Decide, round, v, "", DecidedOut(w.c, s1, ""), DecidedState(w.c, s1, v)));
    LaterTwice(w, g, g1, g', {p}, {p});
  }

  // ---------- the run ----------

  lemma InjectVotes(w: World, g: Global, phase: Phase, round: int, vid: Option<string>) returns (g': Global)
    requires w.c.power != [] && Reachable(w, g) && FaultyAbsent(w, g)
    ensures Later(w, g, g', {}) && AllCast(g'.sent, w.faulty, phase, round, vid)
  {
    var msgs := VotesOfSide(w.faulty, phase, round, vid);
    g' := InjectAll(w, g, msgs);
    forall p | p in w.faulty ensures Cast(p, phase, round, vid) in g'.sent {
      assert Cast(p, phase, round, vid) in msgs;
    }
  }

  lemma InjectProposal(w: World, g: Global, round: int, v: string) returns (g': Global)
    requires w.c.power != [] && Reachable(w, g) && FaultyAbsent(w, g)
    ensures Later(w, g, g', {}) && (w.c.Proposer(0, round) in w.faulty ==> ProposalIn(w.c, round, v) in g'.sent)
  {
    g' := g;
    if w.c.Proposer(0, round) in w.faulty {
      var m := ProposalIn(w.c, round, v);
      assert m.sender !in g.nodes;
      g' := InjectAll(w, g, [m]);
      assert m in [m];
    }
  }

  ghost predicate FaultyAbsent(w: World, g: Global) {
    forall p :: p in w.faulty ==> p !in g.nodes
  }

  lemma SidePrecommits(w: World, g: Global, members: set<int>, round: int, v: string) returns (g': Global)
    requires w.c.power != [] && Reachable(w, g) && AllStanding(w, g, members, Begun(round), v) && |v| == 1
    requires IsSide(w, members + w.faulty) && ProposalIn(w.c, round, v) in g.sent && AllCast(g.sent, w.faulty, Prevote, round, Some(v))
    ensures Later(w, g, g', members) && AllStanding(w, g', members, Precommitted(round), v) && AllSaid(w, g', members, Precommitted(round), v)
  {
    var side := members + w.faulty;
    var g1 := AllAdvance(w, g, members, side, Begun(round), Prevoted(round), v);
    forall q | q in side ensures Cast(q, Prevote, round, Some(v)) in g1.sent {
      assert q in members ==> Said(w.c, g1.sent, q, Prevoted(round), v);
    }
    g' := AllAdvance(w, g1, members, side, Prevoted(round), Precommitted(round), v);
    LaterTwice(w, g, g1, g', members, members);
    assert members + members == members;
  }

  /** A side carries a value from the start of a round to a decision; the faulty nodes vote with it. */
  lemma SideDecides(w: World, g: Global, members: set<int>, round: int, v: string) returns (g': Global, p: int)
    requires w.c.power != [] && Reachable(w, g) && AllStanding(w, g, members, Begun(round), v) && members != {} && |v| == 1
    requires FaultyAbsent(w, g) && IsSide(w, members + w.faulty) && ProposalIn(w.c, round, v) in g.sent
    ensures Later(w, g, g', members) && p in members && p in g'.nodes && g'.nodes[p].decisions == map[0 := v]
  {
    var g1 := InjectVotes(w, g, Prevote, round, Some(v));
    var g2 := InjectVotes(w, g1, Precommit, round, Some(v));
    LaterTwice(w, g, g1, g2, {}, {});
    StillStanding(w, g, g2, {} + {}, members, Begun(round), v);
    g', p := SideCarries(w, g2, members, round, v);
    LaterTwice(w, g, g2, g', {} + {}, members);
    assert ({} + {}) + members == members;
  }

  lemma SideCarries(w: World, g: Global, members: set<int>, round: int, v: string) returns (g': Global, p: int)
    requires w.c.power != [] && Reachable(w, g) && AllStanding(w, g, members, Begun(round), v) && members != {} && |v| == 1
    requires IsSide(w, members + w.faulty) && ProposalIn(w.c, round, v) in g.sent
    requires AllCast(g.sent, w.faulty, Prevote, round, Some(v)) && AllCast(g.sent, w.faulty, Precommit, round, Some(v))
    ensures Later(w, g, g', members) && p in members && p in g'.nodes && g'.nodes[p].decisions == map[0 := v]
  {
    var side := members + w.faulty;
    var g1 := SidePrecommits(w, g, members, round, v);
    forall q | q in side ensures Cast(q, Precommit, round, Some(v)) in g1.sent {
      assert q in members ==> Said(w.c, g1.sent, q, Precommitted(round), v);
    }
    NonEmpty(members);
    p :| p in members;
    assert Standing(w, g1, p, Precommitted(round), v);
    g' := Decides(w, g1, p, side, round, v);
    LaterTwice(w, g, g1, g', members, {p});
    assert members + {p} == members;
  }

  /** A side votes nil through a round that none of its members leads; the faulty nodes vote nil with it. */
  lemma SidePasses(w: World, g: Global, members: set<int>, round: int, v: string) returns (g': Global)
    requires w.c.power != [] && Reachable(w, g) && AllStanding(w, g, members, Begun(round), v) && |v| == 1
    requires FaultyAbsent(w, g) && IsSide(w, members + w.faulty) && w.c.Proposer(0, round) !in members
    ensures Later(w, g, g', members) && AllStanding(w, g', members, Begun(round + 1), v) && AllSaid(w, g', members, Begun(round + 1), v)
  {
    var g1 := InjectVotes(w, g, Prevote, round, None);
    var g2 := InjectVotes(w, g1, Precommit, round, None);
    LaterTwice(w, g, g1, g2, {}, {});
    StillStanding(w, g, g2, {} + {}, members, Begun(round), v);
    g' := SideGivesUp(w, g2, members, round, v);
    LaterTwice(w, g, g2, g', {} + {}, members);
    assert ({} + {}) + members == members;
  }

  lemma SideGivesUp(w: World, g: Global, members: set<int>, round: int, v: string) returns (g': Global)
    requires w.c.power != [] && Reachable(w, g) && AllStanding(w, g, members, Begun(round), v) && |v| == 1
    requires IsSide(w, members + w.faulty) && w.c.Proposer(0, round) !in members
    requires AllCast(g.sent, w.faulty, Prevote, round, None) && AllCast(g.sent, w.faulty, Precommit, round, None)
    ensures Later(w, g, g', members) && AllStanding(w, g', members, Begun(round + 1), v) && AllSaid(w, g', members, Begun(round + 1), v)
  {
    var side := members + w.faulty;
    var g1 := AllAdvance(w, g, members, side, Begun(round), NilPrevoted(round), v);
    forall q | q in side ensures Cast(q, Prevote, round, None) in g1.sent {
      assert q in members ==> Said(w.c, g1.sent, q, NilPrevoted(round), v);
    }
    var g2 := AllAdvance(w, g1, members, side, NilPrevoted(round), NilPrecommitted(round), v);
    LaterTwice(w, g, g1, g2, members, members);
    forall q | q in side ensures Cast(q, Precommit, round, None) in g2.sent {
      assert q in members ==> Said(w.c, g2.sent, q, NilPrecommitted(round), v);
    }
    g' := AllAdvance(w, g2, members, side, NilPrecommitted(round), Begun(round + 1), v);
    LaterTwice(w, g, g2, g', members, members);
    assert members + members == members;
  }

  /** A side votes nil through all rounds below `last`. */
  lemma {:induction false} SideWaits(w: World, g: Global, members: set<int>, last: nat, v: string) returns (g': Global)
    requires w.c.power != [] && Reachable(w, g) && AllStanding(w, g, members, Begun(0), v) && AllSaid(w, g, members, Begun(0), v) && |v| == 1
    requires FaultyAbsent(w, g) && IsSide(w, members + w.faulty) && forall r :: 0 <= r < last ==> w.c.Proposer(0, r) !in members
    ensures Later(w, g, g', members) && AllStanding(w, g', members, Begun(last), v) && AllSaid(w, g', members, Begun(last), v)
  {
    g' := g;
    if last > 0 {
      var g1 := SideWaits(w, g, members, last - 1, v);
      g' := SidePasses(w, g1, members, last - 1, v);
      LaterTwice(w, g, g1, g', members, members);
      assert members + members == members;
    }
  }

  /** The two sides and what they need: together with the faulty nodes both are quorums, the second side leads no
      round below `last`, and the first side does not lead `last`. */
  ghost predicate TwoSides(w: World, first: set<int>, second: set<int>, last: nat) {
    && w.c.power != [] && first != {} && second != {} && first * second == {} && (forall p :: p in first + second <==> w.Correct(p))
    && IsSide(w, first + w.faulty) && IsSide(w, second + w.faulty)
    && (forall r :: 0 <= r < last ==> w.c.Proposer(0, r) !in second) && w.c.Proposer(0, last) !in first && last > 0
  }

  lemma LeaderIsMember(w: World, round: nat)
    requires w.c.power != []
    ensures 0 <= w.c.Proposer(0, round) < |w.c.power|
  {
  }

  /** No correct node has begun. */
  lemma Beginning(w: World, members: set<int>) returns (g: Global)
    requires w.c.power != [] && forall p :: p in members <==> w.Correct(p)
    ensures Reachable(w, g) && FaultyAbsent(w, g) && forall v :: AllStanding(w, g, members, NotBegun, v)
  {
    g := Global(map p | p in members :: NewNode(p), {}, {});
    assert Init(w, g);
    assert EndsIn(w, [], [g], g);
    forall p, v | p in members ensures Standing(w, g, p, NotBegun, v) {
      assert g.nodes[p] == NewNode(p);
    }
  }

  lemma StillStanding(w: World, g: Global, g': Global, moved: set<int>, members: set<int>, st: Stage, v: string)
    requires w.c.power != [] && Later(w, g, g', moved) && moved * members == {} && AllStanding(w, g, members, st, v)
    ensures AllStanding(w, g', members, st, v)
  {
    forall p | p in members ensures Standing(w, g', p, st, v) {
      assert Standing(w, g, p, st, v) && p !in moved * members;
    }
  }

  lemma PartStanding(w: World, g: Global, all: set<int>, part: set<int>, stage: Stage, v: string)
    requires w.c.power != [] && AllStanding(w, g, all, stage, v) && part <= all
    ensures AllStanding(w, g, part, stage, v)
  {
  }

  lemma SidesWait(w: World, first: set<int>, second: set<int>) returns (g: Global)
    requires w.c.power != [] && forall p :: p in first + second <==> w.Correct(p)
    ensures Reachable(w, g) && FaultyAbsent(w, g) && AllStanding(w, g, first, NotBegun, "A") && AllStanding(w, g, second, NotBegun, "B")
  {
    g := Beginning(w, first + second);
    PartStanding(w, g, first + second, first, NotBegun, "A");
    PartStanding(w, g, first + second, second, NotBegun, "B");
  }

  /** A side that begins a round has its proposal, from its own leader or from a faulty one. */
  lemma ProposalMade(w: World, g: Global, members: set<int>, others: set<int>, round: nat, v: string) returns (g': Global)
    requires w.c.power != [] && Reachable(w, g) && FaultyAbsent(w, g) && AllStanding(w, g, members, Begun(round), v)
    requires AllSaid(w, g, members, Begun(round), v) && (forall p :: p in members + others <==> w.Correct(p)) && w.c.Proposer(0, round) !in others
    ensures Later(w, g, g', {}) && AllStanding(w, g', members, Begun(round), v) && ProposalIn(w.c, round, v) in g'.sent
  {
    LeaderIsMember(w, round);
    var leader := w.c.Proposer(0, round);
    assert leader in members + others <==> w.Correct(leader);
    g' := InjectProposal(w, g, round, v);
    if leader in members {
      assert Said(w.c, g.sent, leader, Begun(round), v);
    }
    StillStanding(w, g, g', {}, members, Begun(round), v);
  }

  /** A side decides in a round that neither the other side nor an earlier message leads. */
  lemma SideWins(w: World, g: Global, members: set<int>, others: set<int>, round: nat, v: string) returns (g': Global, p: int)
    requires w.c.power != [] && Reachable(w, g) && FaultyAbsent(w, g) && AllStanding(w, g, members, Begun(round), v) && members != {} && |v| == 1
    requires AllSaid(w, g, members, Begun(round), v) && (forall p :: p in members + others <==> w.Correct(p)) && w.c.Proposer(0, round) !in others
    requires IsSide(w, members + w.faulty)
    ensures Later(w, g, g', members) && p in members && p in g'.nodes && g'.nodes[p].decisions == map[0 := v]
  {
    var g1 := ProposalMade(w, g, members, others, round, v);
    g', p := SideDecides(w, g1, members, round, v);
    LaterTwice(w, g, g1, g', {}, members);
    assert {} + members == members;
  }

  /** The two sides decide different values. */
  lemma SidesDisagree(w: World, first: set<int>, second: set<int>, last: nat) returns (g: Global, p: int, q: int)
    requires TwoSides(w, first, second, last)
    ensures Reachable(w, g) && p in g.nodes && q in g.nodes
    ensures g.nodes[p].decisions == map[0 := "A"] && g.nodes[q].decisions == map[0 := "B"]
  {
    var g1;
    g1, p := FirstDecides(w, first, second, last);
    g, q := SecondDecides(w, g1, first, second, last);
    assert p !in first * second;
  }

  lemma FirstDecides(w: World, first: set<int>, second: set<int>, last: nat) returns (g: Global, p: int)
    requires TwoSides(w, first, second, last)
    ensures Reachable(w, g) && FaultyAbsent(w, g) && AllStanding(w, g, second, NotBegun, "B")
    ensures p in first && p in g.nodes && g.nodes[p].decisions == map[0 := "A"]
  {
    var g1 := SidesWait(w, first, second);
    var g2 := AllAdvance(w, g1, first, first + w.faulty, NotBegun, Begun(0), "A");
    g, p := SideWins(w, g2, first, second, 0, "A");
    LaterTwice(w, g1, g2, g, first, first);
    assert first + first == first;
    StillStanding(w, g1, g, first, second, NotBegun, "B");
  }

  lemma SecondDecides(w: World, g: Global, first: set<int>, second: set<int>, last: nat) returns (g': Global, q: int)
    requires TwoSides(w, first, second, last) && Reachable(w, g) && FaultyAbsent(w, g) && AllStanding(w, g, second, NotBegun, "B")
    ensures Later(w, g, g', second) && q in second && q in g'.nodes && g'.nodes[q].decisions == map[0 := "B"]
  {
    var g1 := AllAdvance(w, g, second, second + w.faulty, NotBegun, Begun(0), "B");
    var g2 := SideWaits(w, g1, second, last, "B");
    g', q := SideWins(w, g2, second, first, last, "B");
    LaterTwice(w, g, g1, g2, second, second);
    LaterTwice(w, g, g2, g', second + second, second);
    assert second + second + second == second;
  }

  // ---------- leaders ----------

  lemma {:induction false} CountedLeads(powers: seq<nat>, steps: nat, i: nat) returns (k: nat)
    requires powers != [] && i < |powers| && Count(powers, steps, i) > 0
    ensures k < steps && LeaderOf(powers, k) == i
  {
    if LeaderOf(powers, steps - 1) == i {
      k := steps - 1;
    } else {
      k := CountedLeads(powers, steps - 1, i);
    }
  }

  /** A set of nodes with power leads some round from 1 on. */
  lemma PowerLeads(w: World, members: set<int>) returns (round: nat)
    requires w.c.power != [] && Power(members, w.c.power) > 0
    ensures round > 0 && w.c.Proposer(0, round) in members
  {
    var i := PoweredMember(members, w.c.power);
    var total := Total(w.c.power);
    PowerMonotone(members, members, w.c.power);
    Fairness(w.c.power, total);
    var k := CountedLeads(w.c.power, total, i);
    Periodic(w.c.power, k);
    round := total + k;
  }

  lemma {:induction false} PoweredMember(members: set<int>, power: seq<nat>) returns (i: nat)
    requires Power(members, power) > 0
    ensures i < |power| && i in members && power[i] > 0
  {
    var last := |power| - 1;
    if last in members && power[last] > 0 {
      i := last;
    } else {
      i := PoweredMember(members, power[..last]);
    }
  }

  lemma {:induction false} FirstLed(w: World, members: set<int>, bound: nat) returns (round: nat)
    requires w.c.power != [] && bound > 0 && w.c.Proposer(0, bound) in members
    ensures 0 < round <= bound && w.c.Proposer(0, round) in members && forall r :: 0 < r < round ==> w.c.Proposer(0, r) !in members
  {
    if r :| 0 < r < bound && w.c.Proposer(0, r) in members {
      round := FirstLed(w, members, r);
    } else {
      round := bound;
    }
  }

  // ---------- the exact condition ----------

  ghost predicate Decided(g: Global, p: int, h: int, v: string) {
    p in g.nodes && h in g.nodes[p].decisions && g.nodes[p].decisions[h] == v
  }

  /** No two correct nodes ever decide different values. */
  ghost predicate AlwaysAgree(w: World) {
    forall events: seq<Event>, states: seq<Global>, i: nat, j: nat, p: int, q: int, h: int, v: string, u: string ::
      && Run(w, events, states) && i <= j < |states| && h < w.c.numHeights && Decided(states[i], p, h, v) && Decided(states[j], q, h, u)
      ==> v == u
  }

  lemma NoSplitSuffices(w: World)
    requires !w.El().Splittable()
    ensures AlwaysAgree(w)
  {
    forall events: seq<Event>, states: seq<Global>, i: nat, j: nat, p: int, q: int, h: int, v: string, u: string |
      && Run(w, events, states) && i <= j < |states| && h < w.c.numHeights && Decided(states[i], p, h, v) && Decided(states[j], q, h, u)
      ensures v == u
    {
      Agreement(w, events, states, i, j, p, q, h);
    }
  }

  /** With the usual bound on powers, there is no split. */
  lemma BoundSuffices(w: World)
    requires Total(w.c.power) + Power(w.faulty, w.c.power) < 2 * (2 * w.c.f + 1)
    ensures AlwaysAgree(w)
  {
    BoundOverlaps(w.El());
    OverlappingExactly(w.El());
    NoSplitSuffices(w);
  }

  /** Of two parts, the one that does not lead round 0 is the second; it waits for a round that it or a faulty node leads. */
  lemma OrderedSides(w: World, a: set<int>, b: set<int>) returns (first: set<int>, second: set<int>, last: nat)
    requires Power(w.faulty, w.c.power) <= w.c.f && a * b == {} && (forall p :: p in a + b <==> w.Correct(p))
    requires IsSide(w, a + w.faulty) && IsSide(w, b + w.faulty)
    ensures TwoSides(w, first, second, last)
  {
    assert w.c.power != [];
    if w.c.Proposer(0, 0) in b {
      first, second := b, a;
    } else {
      first, second := a, b;
    }
    assert first == {} ==> first + w.faulty == w.faulty;
    assert second == {} ==> second + w.faulty == w.faulty;
    var bound := PowerLeads(w, second + w.faulty);
    last := FirstLed(w, second + w.faulty, bound);
    assert w.c.Proposer(0, 0) !in a * b && w.c.Proposer(0, last) !in a * b;
    assert w.c.Proposer(0, last) in a + b <==> w.Correct(w.c.Proposer(0, last));
  }

  /** If the correct nodes can be split, a run with tolerably little faulty power in which two correct nodes decide
      different values; the total power passes the configuration check. */
  lemma Disagreement(w: World) returns (events: seq<Event>, states: seq<Global>, p: int, q: int)
    requires w.El().Splittable() && Power(w.faulty, w.c.power) <= w.c.f
    ensures Total(w.c.power) > 3 * w.c.f && Run(w, events, states)
    ensures Decided(states[|events|], p, 0, "A") && Decided(states[|events|], q, 0, "B")
  {
    var el := w.El();
    var a :| a <= el.CorrectVoters() && el.IsQuorum(a + el.faulty) && el.IsQuorum((el.CorrectVoters() - a) + el.faulty);
    var b := el.CorrectVoters() - a;
    SplitNeedsPower(w, a, b);
    var first, second, last := OrderedSides(w, a, b);
    var g;
    g, p, q := SidesDisagree(w, first, second, last);
    events, states :| EndsIn(w, events, states, g);
  }

  lemma SplitNeedsPower(w: World, a: set<int>, b: set<int>)
    requires IsSide(w, a + w.faulty) && IsSide(w, b + w.faulty) && a * b == {} && a * w.faulty == {} && Power(w.faulty, w.c.power) <= w.c.f
    ensures Total(w.c.power) > 3 * w.c.f
  {
    PowerInclusionExclusion(a + w.faulty, b + w.faulty, w.c.power);
    forall x | x in (a + w.faulty) * (b + w.faulty) ensures x in w.faulty {
      assert x !in a * b;
    }
    assert (a + w.faulty) * (b + w.faulty) == w.faulty;
    PowerMonotone((a + w.faulty) + (b + w.faulty), (a + w.faulty) + (b + w.faulty), w.c.power);
  }

  /** If the faulty power is at most f, agreement holds in every run if and only if the correct nodes cannot be split
      into two parts that both are quorums together with the faulty nodes. */
  lemma AgreementExactly(w: World)
    requires Power(w.faulty, w.c.power) <= w.c.f && w.c.numHeights > 0
    ensures AlwaysAgree(w) <==> !w.El().Splittable()
  {
    if w.El().Splittable() {
      var events, states, p, q := Disagreement(w);
      assert "A"[0] != "B"[0];
    } else {
      NoSplitSuffices(w);
    }
  }

  // ---------- equal powers ----------

  /** A system of n nodes of power 1. */
  ghost function Equal(n: nat, f: nat, heights: int, faulty: set<int>): World {
    World(Config(Ones(n), f, heights), faulty)
  }

  lemma EqualQuorum(n: nat, f: nat, heights: int, faulty: set<int>, side: set<int>)
    requires side <= Members(n) && |side| >= 2 * f + 1
    ensures Equal(n, f, heights, faulty).El().IsQuorum(side)
  {
    PowerOfOnes(side, n);
    assert side * Members(n) == side;
  }

  /** The correct nodes in two parts, each of them a quorum together with the faulty nodes. */
  lemma SplitQuorums(n: nat, f: nat, heights: int, faulty: set<int>)
    requires faulty <= Members(n) && |faulty| <= f && n + |faulty| >= 2 * (2 * f + 1)
    ensures Equal(n, f, heights, faulty).El().Splittable()
  {
    var correct := Members(n) - faulty;
    assert |correct| == n - |faulty|;
    var part := SubsetOfSize(correct, 2 * f + 1 - |faulty|);
    var rest := correct - part;
    assert |rest| == |correct| - |part|;
    assert |part + faulty| == |part| + |faulty| && |rest + faulty| == |rest| + |faulty|;
    EqualQuorum(n, f, heights, faulty, part + faulty);
    EqualQuorum(n, f, heights, faulty, rest + faulty);
    var el := Equal(n, f, heights, faulty).El();
    assert el.CorrectVoters() == correct;
    assert part <= el.CorrectVoters() && el.IsQuorum(part + el.faulty) && el.IsQuorum((el.CorrectVoters() - part) + el.faulty);
  }

  /** With equal powers and at most f faulty nodes: if and only if n plus the number of faulty nodes is below 2(2f+1). */
  lemma EqualPowersExactly(n: nat, f: nat, heights: int, faulty: set<int>)
    requires faulty <= Members(n) && |faulty| <= f && heights > 0
    ensures AlwaysAgree(Equal(n, f, heights, faulty)) <==> n + |faulty| < 2 * (2 * f + 1)
  {
    var w := Equal(n, f, heights, faulty);
    PowerOfOnes(faulty, n);
    TotalOfOnes(n);
    assert faulty * Members(n) == faulty;
    if n + |faulty| < 2 * (2 * f + 1) {
      BoundSuffices(w);
    } else {
      SplitQuorums(n, f, heights, faulty);
      AgreementExactly(w);
    }
  }
}
