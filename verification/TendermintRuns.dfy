/** Runs of a Tendermint system: deliveries, timer expiries and rule firings at the correct nodes in any
    order, and arbitrary messages that the faulty nodes send under their own identity. */
module TendermintRuns {
  import opened Quorums
  import opened LockedVoting
  import opened TendermintNode

  datatype World = World(c: Config, faulty: set<int>)
  {
    function El(): Electorate {
      Electorate(c.power, c.Quorum(), faulty)
    }

    predicate Correct(p: int) {
      0 <= p < |c.power| && p !in faulty
    }
  }

  datatype Global = Global(nodes: map<int, NodeState>, begun: set<int>, sent: set<Msg>)

  datatype Event =
    | Begin(p: int, novel: string)
    | Receive(p: int, m: Msg)
    | Expire(p: int, timer: nat, novel: string)
    | Apply(p: int, f: Firing)
    | Inject(m: Msg)

  ghost predicate Init(w: World, g: Global) {
    && w.c.power != []
    && (forall p :: p in g.nodes <==> w.Correct(p))
    && (forall p :: p in g.nodes ==> g.nodes[p] == NewNode(p))
    && g.begun == {} && g.sent == {}
  }

  /** What node `p` sends in an event. */
  ghost function Out(w: World, g: Global, e: Event): seq<Msg>
    requires w.c.power != [] && !e.Inject? && e.p in g.nodes
    requires e.Expire? ==> e.timer < |g.nodes[e.p].timers|
  {
    match e
    case Begin(p, novel) => StartedRoundOut(w.c, g.nodes[p], 0, novel)
    case Receive(p, m) => []
    case Expire(p, i, novel) => TimedOutOut(w.c, g.nodes[p], i, novel)
    case Apply(p, f) => f.out
  }

  ghost function After(w: World, g: Global, e: Event): NodeState
    requires w.c.power != [] && !e.Inject? && e.p in g.nodes
    requires e.Expire? ==> e.timer < |g.nodes[e.p].timers|
  {
    var s := g.nodes[e.p];
    match e
    case Begin(p, novel) => StartedRound(w.c, s, 0)
    case Receive(p, m) => s.(log := s.log + [m])
    case Expire(p, i, novel) => TimedOut(w.c, s, i)
    case Apply(p, f) => f.post
  }

  ghost predicate MayHappen(w: World, g: Global, e: Event)
    requires w.c.power != []
  {
    if e.Inject? then e.m.sender !in g.nodes
    else
      && e.p in g.nodes && (e.p in g.begun <==> !e.Begin?)
      && match e
         case Begin(p, novel) => true
         case Receive(p, m) => m in g.sent
         case Expire(p, i, novel) => i < |g.nodes[p].timers| && !g.nodes[p].done
         case Apply(p, f) => f.pre == g.nodes[p] && FiringOk(w.c, f)
  }

  ghost predicate Step(w: World, g: Global, e: Event, g': Global) {
    && w.c.power != [] && MayHappen(w, g, e)
    && if e.Inject? then g' == g.(sent := g.sent + {e.m})
       else g' == Global(g.nodes[e.p := After(w, g, e)], g.begun + {e.p}, g.sent + set m | m in Out(w, g, e))
  }

  ghost predicate Run(w: World, events: seq<Event>, states: seq<Global>) {
    && |states| == |events| + 1
    && Init(w, states[0])
    && forall i :: 0 <= i < |events| ==> Step(w, states[i], events[i], states[i + 1])
  }

  // ---------- votes ----------

  ghost function Ballots(sent: set<Msg>): set<Ballot> {
    set m | m in sent && m.kind.Vote? :: Ballot(m.kind.phase, m.height, m.round, m.sender, m.vid)
  }

  lemma LogQuorum(w: World, sent: set<Msg>, log: seq<Msg>, phase: Phase, height: int, round: int, vid: Option<string>)
    requires forall m :: m in log ==> m in sent
    requires HasQuorum(w.c, log, phase, height, round, Exactly(vid))
    ensures Quorum(w.El(), Ballots(sent), phase, height, round, vid)
  {
    var seen := VotersIn(log, phase, height, round, Exactly(vid));
    forall p | p in seen ensures p in Voters(Ballots(sent), phase, height, round, vid) {
      var m :| m in log && Counts(m, phase, height, round, Exactly(vid)) && m.sender == p;
      assert Ballot(phase, height, round, p, vid) in Ballots(sent);
    }
    PowerMonotone(seen, Voters(Ballots(sent), phase, height, round, vid), w.c.power);
  }

  // ---------- the invariant ----------

  /** Everything `p` sent belongs to a height and round it has reached, and to a step it has taken. */
  ghost predicate Reached(sent: set<Msg>, p: int, s: NodeState) {
    forall m :: m in sent && m.sender == p ==>
      && m.round >= 0
      && (m.height < s.h || (m.height == s.h && m.round <= s.round))
      && (m.height == s.h && m.round == s.round && m.kind == Vote(Prevote) ==> s.step != ProposeStep)
      && (m.height == s.h && m.round == s.round && m.kind == Vote(Precommit) ==> s.step == PrecommitStep)
  }

  /** A lock was taken in an earlier step, on a value with a quorum of prevotes, and is as recent as every
      value that `p` precommitted at this height. */
  ghost predicate LockOk(w: World, votes: set<Ballot>, p: int, s: NodeState) {
    s.h < w.c.numHeights ==>
      && -1 <= s.lockedRound <= s.round
      && (s.step != PrecommitStep ==> s.lockedRound < s.round)
      && (s.lockedRound >= 0 ==> Quorum(w.El(), votes, Prevote, s.h, s.lockedRound, s.lockedValue))
      && forall b :: b in votes && b.sender == p && b.phase == Precommit && b.height == s.h && b.value.Some?
                     ==> b.round <= s.lockedRound
  }

  ghost predicate VotesOk(w: World, votes: set<Ballot>, p: int) {
    && PrevotesOnce(votes, p) && PrecommitsProved(w.El(), votes, p)
    && forall height :: height < w.c.numHeights ==> LocksRespected(w.El(), votes, p, height)
  }

  /** A precommit timer was armed on a quorum of precommits that the node holds in its log. */
  ghost predicate TimersOk(c: Config, s: NodeState) {
    forall t :: t in s.timers && t.kind == PrecommitTimer ==> HasQuorum(c, s.log, Precommit, t.height, t.round, AnyValue)
  }

  ghost predicate DecisionsOk(w: World, votes: set<Ballot>, decisions: map<int, string>) {
    forall h :: h in decisions ==> exists r :: Quorum(w.El(), votes, Precommit, h, r, Some(decisions[h]))
  }

  ghost predicate NodeOk(w: World, sent: set<Msg>, p: int, s: NodeState) {
    && s.id == p && s.round >= 0
    && (forall m :: m in s.log ==> m in sent)
    && Reached(sent, p, s)
    && LockOk(w, Ballots(sent), p, s) && VotesOk(w, Ballots(sent), p)
    && TimersOk(w.c, s) && DecisionsOk(w, Ballots(sent), s.decisions)
  }

  /** A node that has not begun is as it was created and has sent nothing. */
  ghost predicate Inv(w: World, g: Global) {
    && w.c.power != []
    && (forall p :: p in g.nodes <==> w.Correct(p))
    && (forall p :: p in g.nodes ==> NodeOk(w, g.sent, p, g.nodes[p]))
    && (forall p :: p in g.nodes && p !in g.begun ==> g.nodes[p] == NewNode(p) && forall m :: m in g.sent ==> m.sender != p)
  }

  // ---------- sending ----------

  /** `m` is a message that `p` may send when its state is `s`. */
  ghost predicate MaySend(w: World, sent: set<Msg>, p: int, s: NodeState, m: Msg) {
    && m.sender == p && m.height == s.h && m.round == s.round
    && match m.kind
       case Proposal => true
       case Vote(Prevote) =>
         && s.step != ProposeStep
         && (forall x :: x in sent && x.sender == p && x.height == s.h && x.round == s.round ==> x.kind != Vote(Prevote))
         && (m.vid.Some? && s.h < w.c.numHeights ==>
               forall b :: && b in Ballots(sent) && b.sender == p && b.phase == Precommit && b.height == s.h && b.value.Some?
                           && b.round < s.round
                           ==> ProvedBetween(w.El(), Ballots(sent), s.h, b.round, s.round, m.vid))
       case Vote(Precommit) =>
         && s.step == PrecommitStep
         && (m.vid.Some? ==> Quorum(w.El(), Ballots(sent), Prevote, s.h, s.round, m.vid)
                             && (s.h < w.c.numHeights ==> s.lockedRound == s.round))
  }

  lemma BallotsGrow(w: World, sent: set<Msg>, m: Msg)
    ensures Ballots(sent) <= Ballots(sent + {m})
    ensures m.kind.Vote? ==> Ballots(sent + {m}) == Ballots(sent) + {Ballot(m.kind.phase, m.height, m.round, m.sender, m.vid)}
    ensures !m.kind.Vote? ==> Ballots(sent + {m}) == Ballots(sent)
  {
  }

  lemma ProvedBetweenGrows(el: Electorate, votes: set<Ballot>, more: set<Ballot>, height: int, low: int, high: int, v: Option<string>)
    requires votes <= more && ProvedBetween(el, votes, height, low, high, v)
    ensures ProvedBetween(el, more, height, low, high, v)
  {
    var r :| low <= r < high && Quorum(el, votes, Prevote, height, r, v);
    QuorumGrows(el, votes, more, Prevote, height, r, v);
  }

  lemma VotesOkGrows(w: World, sent: set<Msg>, p: int, s: NodeState, m: Msg)
    requires NodeOk(w, sent, p, s) && (m.sender == p ==> MaySend(w, sent, p, s, m))
    ensures VotesOk(w, Ballots(sent + {m}), p)
  {
    var votes, more := Ballots(sent), Ballots(sent + {m});
    BallotsGrow(w, sent, m);
    forall b | b in more && b.sender == p && b.phase == Precommit && b.value.Some?
      ensures Quorum(w.El(), more, Prevote, b.height, b.round, b.value)
    {
      QuorumGrows(w.El(), votes, more, Prevote, b.height, b.round, b.value);
    }
    forall height | height < w.c.numHeights ensures LocksRespected(w.El(), more, p, height) {
      forall a, b | a in more && b in more && a.sender == b.sender == p && a.height == b.height == height && a.phase == Precommit
                    && a.value.Some? && b.phase == Prevote && b.value.Some? && a.round < b.round
        ensures ProvedBetween(w.El(), more, height, a.round, b.round, b.value)
      {
        EarlierIsOld(w, sent, p, s, m, a, b);
        ProvedBetweenGrows(w.El(), votes, more, height, a.round, b.round, b.value);
      }
    }
    forall a, b | a in more && b in more && a.sender == b.sender == p && a.phase == b.phase == Prevote
                  && a.height == b.height && a.round == b.round
      ensures a.value == b.value
    {
      FirstPrevote(w, sent, p, s, m, a, b);
    }
  }

  /** A precommit of an earlier round than some prevote is never the newest message. */
  lemma EarlierIsOld(w: World, sent: set<Msg>, p: int, s: NodeState, m: Msg, a: Ballot, b: Ballot)
    requires NodeOk(w, sent, p, s) && (m.sender == p ==> MaySend(w, sent, p, s, m))
    requires a in Ballots(sent + {m}) && b in Ballots(sent + {m}) && a.sender == b.sender == p && a.height == b.height
    requires a.height < w.c.numHeights && a.phase == Precommit && a.value.Some? && b.phase == Prevote && b.value.Some? && a.round < b.round
    ensures ProvedBetween(w.El(), Ballots(sent), a.height, a.round, b.round, b.value)
  {
    BallotsGrow(w, sent, m);
    if a !in Ballots(sent) {
      assert false;
    } else if b in Ballots(sent) {
      assert LocksRespected(w.El(), Ballots(sent), p, a.height);
    }
  }

  lemma FirstPrevote(w: World, sent: set<Msg>, p: int, s: NodeState, m: Msg, a: Ballot, b: Ballot)
    requires NodeOk(w, sent, p, s) && (m.sender == p ==> MaySend(w, sent, p, s, m))
    requires a in Ballots(sent + {m}) && b in Ballots(sent + {m}) && a.sender == b.sender == p && a.phase == b.phase == Prevote
    requires a.height == b.height && a.round == b.round
    ensures a.value == b.value
  {
    BallotsGrow(w, sent, m);
  }

  /** A node stays in order when it sends what it may, and when others send anything. */
  lemma SendingKeeps(w: World, sent: set<Msg>, p: int, s: NodeState, m: Msg)
    requires NodeOk(w, sent, p, s) && (m.sender == p ==> MaySend(w, sent, p, s, m))
    ensures NodeOk(w, sent + {m}, p, s)
  {
    var votes, more := Ballots(sent), Ballots(sent + {m});
    BallotsGrow(w, sent, m);
    VotesOkGrows(w, sent, p, s, m);
    if s.lockedRound >= 0 && s.h < w.c.numHeights {
      QuorumGrows(w.El(), votes, more, Prevote, s.h, s.lockedRound, s.lockedValue);
    }
    forall h | h in s.decisions ensures exists r :: Quorum(w.El(), more, Precommit, h, r, Some(s.decisions[h])) {
      var r :| Quorum(w.El(), votes, Precommit, h, r, Some(s.decisions[h]));
      QuorumGrows(w.El(), votes, more, Precommit, h, r, Some(s.decisions[h]));
    }
  }

  /** A node that hears more keeps the quorums it holds. */
  lemma HearingKeepsTimers(c: Config, s: NodeState, m: Msg)
    requires TimersOk(c, s)
    ensures TimersOk(c, s.(log := s.log + [m]))
  {
    forall t | t in s.timers && t.kind == PrecommitTimer
      ensures HasQuorum(c, s.log + [m], Precommit, t.height, t.round, AnyValue)
    {
      var before, after := VotersIn(s.log, Precommit, t.height, t.round, AnyValue), VotersIn(s.log + [m], Precommit, t.height, t.round, AnyValue);
      assert forall x :: x in s.log ==> x in s.log + [m];
      PowerMonotone(before, after, c.power);
    }
  }

  // ---------- state changes ----------

  lemma StartedRoundKeeps(w: World, sent: set<Msg>, p: int, s: NodeState, round: int)
    requires w.c.power != [] && NodeOk(w, sent, p, s)
    requires round > s.round || (round == s.round && s.step == ProposeStep)
    ensures NodeOk(w, sent, p, StartedRound(w.c, s, round))
  {
    var s' := StartedRound(w.c, s, round);
    assert forall t :: t in s'.timers && t.kind == PrecommitTimer ==> t in s.timers;
  }

  lemma {:induction false} FromHeightIsPart(log: seq<Msg>, height: int, m: Msg)
    requires m in FromHeight(log, height)
    ensures m in log
  {
    if log[0].height < height || m != log[0] {
      FromHeightIsPart(log[1..], height, m);
    }
  }

  lemma NextHeightKeeps(w: World, sent: set<Msg>, p: int, s: NodeState)
    requires NodeOk(w, sent, p, s)
    ensures NodeOk(w, sent, p, NextHeight(s))
  {
    forall m | m in FromHeight(s.log, s.h + 1) ensures m in sent {
      FromHeightIsPart(s.log, s.h + 1, m);
    }
    forall b | b in Ballots(sent) && b.sender == p ensures b.height <= s.h {
      var m :| m in sent && m.sender == p && m.height == b.height;
    }
  }

  lemma DecidingKeeps(w: World, sent: set<Msg>, p: int, s: NodeState, round: int, v: string)
    requires w.c.power != [] && NodeOk(w, sent, p, s) && MayDecide(w.c, s, round, v)
    ensures NodeOk(w, sent, p, DecidedState(w.c, s, v))
  {
    LogQuorum(w, sent, s.log, Precommit, s.h, round, Some(v));
    var s1 := s.(decisions := s.decisions[s.h := v]);
    assert NodeOk(w, sent, p, s1);
    if s.h + 1 < w.c.numHeights {
      NextHeightKeeps(w, sent, p, s1);
      StartedRoundKeeps(w, sent, p, NextHeight(s1), 0);
    } else {
      assert s1.h + 1 >= w.c.numHeights;
    }
  }

  lemma SteppingKeeps(w: World, sent: set<Msg>, p: int, s: NodeState, step: StepName)
    requires NodeOk(w, sent, p, s)
    requires (s.step == ProposeStep && step == PrevoteStep) || step == PrecommitStep
    ensures NodeOk(w, sent, p, s.(step := step))
  {
  }

  lemma LockingKeeps(w: World, sent: set<Msg>, p: int, s: NodeState, v: Option<string>)
    requires NodeOk(w, sent, p, s) && s.step != ProposeStep
    requires Quorum(w.El(), Ballots(sent), Prevote, s.h, s.round, v)
    ensures NodeOk(w, sent, p, Locked(s, v))
  {
    var s' := Locked(s, v);
    assert s'.log == s.log && s'.timers == s.timers && s'.decisions == s.decisions;
  }

  /** The lock lets a prevote pass only if a quorum prevoted the value since the last precommit. */
  lemma LockPermits(w: World, sent: set<Msg>, p: int, s: NodeState, v: Option<string>, b: Ballot, vr: int)
    requires NodeOk(w, sent, p, s) && s.h < w.c.numHeights && s.step == ProposeStep && v.Some?
    requires b in Ballots(sent) && b.sender == p && b.phase == Precommit && b.height == s.h && b.value.Some? && b.round < s.round
    requires || s.lockedRound == -1 || s.lockedValue == v
             || (s.lockedRound <= vr < s.round && Quorum(w.El(), Ballots(sent), Prevote, s.h, vr, v))
    ensures ProvedBetween(w.El(), Ballots(sent), s.h, b.round, s.round, v)
  {
    var m :| m in sent && m.sender == p && m.height == b.height && m.round == b.round;
    assert 0 <= b.round <= s.lockedRound;
    if s.lockedValue == v {
      assert Quorum(w.El(), Ballots(sent), Prevote, s.h, s.lockedRound, v);
    }
  }

  lemma PrevoteMayBeSent(w: World, sent: set<Msg>, p: int, s: NodeState, v: Option<string>, unlocked: bool, vr: int)
    requires NodeOk(w, sent, p, s) && s.step == ProposeStep
    requires unlocked ==> s.lockedRound == -1 || (s.lockedRound <= vr < s.round && Quorum(w.El(), Ballots(sent), Prevote, s.h, vr, v))
    ensures MaySend(w, sent, p, s.(step := PrevoteStep), VoteOf(s, Prevote, PrevoteFor(s, v, unlocked)))
  {
    var vid := PrevoteFor(s, v, unlocked);
    if vid.Some? && s.h < w.c.numHeights {
      forall b | b in Ballots(sent) && b.sender == p && b.phase == Precommit && b.height == s.h && b.value.Some? && b.round < s.round
        ensures ProvedBetween(w.El(), Ballots(sent), s.h, b.round, s.round, vid)
      {
        LockPermits(w, sent, p, s, v, b, vr);
      }
    }
  }

  // ---------- events ----------

  /** The node is in order in its new state, and `out` is at most one message it may send there. */
  ghost predicate Ready(w: World, sent: set<Msg>, p: int, s: NodeState, out: seq<Msg>) {
    NodeOk(w, sent, p, s) && |out| <= 1 && forall m :: m in out ==> MaySend(w, sent, p, s, m)
  }

  lemma ProposalRuleReady(w: World, sent: set<Msg>, p: int, s: NodeState, v: Option<string>, unlocked: bool, vr: int)
    requires NodeOk(w, sent, p, s) && s.step == ProposeStep
    requires unlocked ==> s.lockedRound == -1 || (s.lockedRound <= vr < s.round && Quorum(w.El(), Ballots(sent), Prevote, s.h, vr, v))
    ensures Ready(w, sent, p, s.(step := PrevoteStep), [VoteOf(s, Prevote, PrevoteFor(s, v, unlocked))])
  {
    SteppingKeeps(w, sent, p, s, PrevoteStep);
    PrevoteMayBeSent(w, sent, p, s, v, unlocked, vr);
  }

  lemma LockRuleReady(w: World, sent: set<Msg>, p: int, s: NodeState, v: Option<string>)
    requires NodeOk(w, sent, p, s) && s.step != ProposeStep && HasQuorum(w.c, s.log, Prevote, s.h, s.round, Exactly(v))
    ensures Ready(w, sent, p, Locked(s, v), LockedOut(s, v))
  {
    LogQuorum(w, sent, s.log, Prevote, s.h, s.round, v);
    LockingKeeps(w, sent, p, s, v);
  }

  lemma ScheduleReady(w: World, sent: set<Msg>, p: int, s: NodeState)
    requires NodeOk(w, sent, p, s)
    ensures NodeOk(w, sent, p, ScheduledPrevote(s))
    ensures PrecommitAnyEnabled(w.c, s) ==> NodeOk(w, sent, p, ScheduledPrecommit(s))
  {
  }

  lemma FiringReady(w: World, sent: set<Msg>, p: int, f: Firing)
    requires w.c.power != [] && NodeOk(w, sent, p, f.pre) && FiringOk(w.c, f)
    ensures Ready(w, sent, p, f.post, f.out)
  {
    var s := f.pre;
    var m := FindProposal(w.c, s.log, s.h, s.round);
    match f.rule
    case ProposalInitial => ProposalRuleReady(w, sent, p, s, m.value.value, s.lockedRound == -1, 0);
    case ProposalWithVr =>
      LogQuorum(w, sent, s.log, Prevote, s.h, m.value.validRound, m.value.value);
      ProposalRuleReady(w, sent, p, s, m.value.value, s.lockedRound <= m.value.validRound, m.value.validRound);
    case Lock => LockRuleReady(w, sent, p, s, m.value.value);
    case PrevoteAny => ScheduleReady(w, sent, p, s);
    case PrevoteNil => SteppingKeeps(w, sent, p, s, PrecommitStep);
    case PrecommitAny => ScheduleReady(w, sent, p, s);
    case Decide => DecidingKeeps(w, sent, p, s, f.round, f.v);
    case RoundSkip => StartedRoundKeeps(w, sent, p, s, f.round);
  }

  lemma TimeoutReady(w: World, sent: set<Msg>, p: int, s: NodeState, i: nat, novel: string)
    requires w.c.power != [] && NodeOk(w, sent, p, s) && i < |s.timers|
    ensures Ready(w, sent, p, TimedOut(w.c, s, i), TimedOutOut(w.c, s, i, novel))
  {
    var s1 := RemoveTimer(s, i);
    assert forall t :: t in s1.timers ==> t in s.timers;
    assert NodeOk(w, sent, p, s1);
    if TimerMatters(s, s.timers[i]) {
      match s.timers[i].kind
      case ProposeTimer => SteppingKeeps(w, sent, p, s1, PrevoteStep);
      case PrevoteTimer => SteppingKeeps(w, sent, p, s1, PrecommitStep);
      case PrecommitTimer => StartedRoundKeeps(w, sent, p, s1, s.round + 1);
    }
  }

  lemma EventReady(w: World, g: Global, e: Event)
    requires Inv(w, g) && !e.Inject? && MayHappen(w, g, e)
    ensures Ready(w, g.sent, e.p, After(w, g, e), Out(w, g, e))
  {
    var s := g.nodes[e.p];
    assert NodeOk(w, g.sent, e.p, s);
    match e
    case Begin(p, novel) => StartedRoundKeeps(w, g.sent, p, s, 0);
    case Receive(p, m) => HearingKeepsTimers(w.c, s, m);
    case Expire(p, i, novel) => TimeoutReady(w, g.sent, p, s, i, novel);
    case Apply(p, f) => FiringReady(w, g.sent, p, f);
  }

  lemma InjectKeeps(w: World, g: Global, m: Msg)
    requires Inv(w, g) && m.sender !in g.nodes
    ensures Inv(w, g.(sent := g.sent + {m}))
  {
    forall p | p in g.nodes ensures NodeOk(w, g.sent + {m}, p, g.nodes[p]) {
      SendingKeeps(w, g.sent, p, g.nodes[p], m);
    }
  }

  lemma StepKeeps(w: World, g: Global, e: Event, g': Global)
    requires Inv(w, g) && Step(w, g, e, g')
    ensures Inv(w, g')
  {
    if e.Inject? {
      InjectKeeps(w, g, e.m);
    } else {
      EventReady(w, g, e);
      var s, out := After(w, g, e), Out(w, g, e);
      forall p | p in g.nodes ensures NodeOk(w, g'.sent, p, g'.nodes[p]) {
        OthersKeep(w, g, e.p, s, out, p);
      }
    }
  }

  lemma OthersKeep(w: World, g: Global, mover: int, s: NodeState, out: seq<Msg>, p: int)
    requires Inv(w, g) && p in g.nodes && Ready(w, g.sent, mover, s, out)
    ensures NodeOk(w, g.sent + (set m | m in out), p, if p == mover then s else g.nodes[p])
  {
    if out == [] {
      assert g.sent + (set m | m in out) == g.sent;
    } else {
      assert g.sent + (set m | m in out) == g.sent + {out[0]};
      SendingKeeps(w, g.sent, p, if p == mover then s else g.nodes[p], out[0]);
    }
  }

  lemma {:induction false} RunKeeps(w: World, events: seq<Event>, states: seq<Global>, i: nat)
    requires Run(w, events, states) && i < |states|
    ensures Inv(w, states[i])
  {
    if i == 0 {
      assert Ballots({}) == {};
    } else {
      RunKeeps(w, events, states, i - 1);
      StepKeeps(w, states[i - 1], events[i - 1], states[i]);
    }
  }

  lemma {:induction false} SentStays(w: World, events: seq<Event>, states: seq<Global>, i: nat, j: nat)
    requires Run(w, events, states) && i <= j < |states|
    ensures states[i].sent <= states[j].sent
    decreases j
  {
    if i < j {
      SentStays(w, events, states, i, j - 1);
      assert Step(w, states[j - 1], events[j - 1], states[j]);
    }
  }

  /** Weighted agreement: if the correct nodes cannot be split into two quorums with the faulty ones, no two
      correct nodes decide different values at the same height, across all rounds, timeouts and skips. */
  lemma Agreement(w: World, events: seq<Event>, states: seq<Global>, i: nat, j: nat, p: int, q: int, h: int)
    requires Run(w, events, states) && i <= j < |states|
    requires !w.El().Splittable() && h < w.c.numHeights
    requires p in states[i].nodes && h in states[i].nodes[p].decisions
    requires q in states[j].nodes && h in states[j].nodes[q].decisions
    ensures states[i].nodes[p].decisions[h] == states[j].nodes[q].decisions[h]
  {
    RunKeeps(w, events, states, i);
    RunKeeps(w, events, states, j);
    SentStays(w, events, states, i, j);
    var v1, v2 := states[i].nodes[p].decisions[h], states[j].nodes[q].decisions[h];
    var early, votes := Ballots(states[i].sent), Ballots(states[j].sent);
    assert NodeOk(w, states[i].sent, p, states[i].nodes[p]) && NodeOk(w, states[j].sent, q, states[j].nodes[q]);
    var r1 :| Quorum(w.El(), early, Precommit, h, r1, Some(v1));
    var r2 :| Quorum(w.El(), votes, Precommit, h, r2, Some(v2));
    QuorumGrows(w.El(), early, votes, Precommit, h, r1, Some(v1));
    forall x | w.El().Correct(x)
      ensures PrevotesOnce(votes, x) && PrecommitsProved(w.El(), votes, x) && LocksRespected(w.El(), votes, x, h)
    {
      assert NodeOk(w, states[j].sent, x, states[j].nodes[x]);
    }
    OverlappingExactly(w.El());
    PrecommitsAgree(w.El(), votes, h, r1, v1, r2, v2);
  }

  // ---------- entering rounds ----------

  /** Whatever a correct node has sent, it sent from the height and round it was in at that moment. */
  lemma {:induction false} SentFromThere(w: World, events: seq<Event>, states: seq<Global>, i: nat, m: Msg) returns (j: nat)
    requires Run(w, events, states) && i < |states| && m in states[i].sent && w.Correct(m.sender)
    ensures j <= i && m.sender in states[j].nodes
    ensures states[j].nodes[m.sender].h == m.height && states[j].nodes[m.sender].round == m.round
  {
    RunKeeps(w, events, states, i);
    if m in states[i - 1].sent {
      j := SentFromThere(w, events, states, i - 1, m);
    } else {
      j := i;
      RunKeeps(w, events, states, i - 1);
      assert Step(w, states[i - 1], events[i - 1], states[i]);
      EventReady(w, states[i - 1], events[i - 1]);
    }
  }

  ghost predicate AboveAt(g: Global, p: int, h: int, r: int) {
    p in g.nodes && g.nodes[p].h == h && g.nodes[p].round > r
  }

  /** A skip to a round means that a correct node has been there before. */
  lemma SkipFollows(w: World, events: seq<Event>, states: seq<Global>, i: nat, p: int, round: int) returns (j: nat, q: int)
    requires Run(w, events, states) && i < |states| && p in states[i].nodes
    requires Power(w.faulty, w.c.power) <= w.c.f && Skippable(w.c, states[i].nodes[p], round)
    ensures j <= i && q in states[j].nodes && states[j].nodes[q].h == states[i].nodes[p].h && states[j].nodes[q].round == round
  {
    var s := states[i].nodes[p];
    RunKeeps(w, events, states, i);
    assert NodeOk(w, states[i].sent, p, s);
    q := CorrectVoter(SendersAt(s.log, s.h, round), w.faulty, w.c.power);
    var m :| m in s.log && m.height == s.h && m.round == round && m.sender == q;
    j := SentFromThere(w, events, states, i, m);
  }

  /** A node rises above a round of a height by the precommit timeout of that round or by a skip. */
  lemma RisesBy(w: World, g: Global, e: Event, g': Global, p: int, h: int, r: nat)
    requires Step(w, g, e, g') && h < w.c.numHeights
    requires !AboveAt(g, p, h, r) && AboveAt(g', p, h, r)
    ensures !e.Inject? && e.p == p && p in g.nodes && g.nodes[p].h == h
    ensures || (e.Expire? && g.nodes[p].timers[e.timer] == Timer(PrecommitTimer, h, r) && g.nodes[p].round == r
                && g'.nodes[p].round == r + 1)
            || (e.Apply? && e.f.rule == RoundSkip && Skippable(w.c, g.nodes[p], e.f.round) && e.f.round > r)
  {
  }

  /** If faulty power is at most f, the first correct node to reach a round above `r` at a height gets
      there by the precommit timeout of round `r`, holding a quorum of precommits of round `r` in its log:
      messages of faulty nodes alone never make a correct node skip. */
  lemma RoundEntry(w: World, events: seq<Event>, states: seq<Global>, i: nat, p: int, h: int, r: nat)
    requires Run(w, events, states) && i < |events| && h < w.c.numHeights
    requires Power(w.faulty, w.c.power) <= w.c.f
    requires forall j, q :: 0 <= j <= i ==> !AboveAt(states[j], q, h, r)
    requires AboveAt(states[i + 1], p, h, r)
    ensures events[i].Expire? && events[i].p == p && p in states[i].nodes && events[i].timer < |states[i].nodes[p].timers|
    ensures var s := states[i].nodes[p];
            && s.timers[events[i].timer] == Timer(PrecommitTimer, h, r) && s.round == r && s.h == h
            && states[i + 1].nodes[p].round == r + 1
    ensures HasQuorum(w.c, states[i].nodes[p].log, Precommit, h, r, AnyValue)
  {
    var g, e := states[i], events[i];
    assert Step(w, g, e, states[i + 1]) && !AboveAt(g, p, h, r);
    RisesBy(w, g, e, states[i + 1], p, h, r);
    if e.Apply? {
      var j, q := SkipFollows(w, events, states, i, p, e.f.round);
      assert AboveAt(states[j], q, h, r);
    } else {
      RunKeeps(w, events, states, i);
      assert NodeOk(w, g.sent, p, g.nodes[p]);
    }
  }
}
