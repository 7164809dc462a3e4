/** The Tendermint node: its state, its eight "upon" rules and its timeouts, and the node as an object.
    A value stands for its own identifier (identifiers are injective). Sending returns the messages;
    a fresh value for a proposal and the moment at which a timer expires come from outside. */
module TendermintNode {
  import opened Quorums
  import opened LockedVoting
  import opened RoundRobin

  datatype Kind = Proposal | Vote(phase: Phase)

  datatype Msg = Msg(kind: Kind, height: int, round: int, sender: int,
                     value: Option<string>, vid: Option<string>, validRound: int)

  datatype Config = Config(power: seq<nat>, f: nat, numHeights: int)
  {
    function Quorum(): nat { 2 * f + 1 }

    function Proposer(height: int, round: int): int
      requires power != []
    {
      ProposerOf(power, height, round)
    }
  }

  datatype StepName = ProposeStep | PrevoteStep | PrecommitStep

  datatype TimerKind = ProposeTimer | PrevoteTimer | PrecommitTimer

  datatype Timer = Timer(kind: TimerKind, height: int, round: int)

  datatype NodeState = NodeState(
    id: int, h: int, round: int, step: StepName, decisions: map<int, string>,
    lockedValue: Option<string>, lockedRound: int, validValue: Option<string>, validRound: int,
    log: seq<Msg>, timers: seq<Timer>,
    firedPrevote: set<(int, int)>, firedPrecommit: set<(int, int)>, firedLock: set<(int, int)>, done: bool)

  function NewNode(id: int): NodeState {
    NodeState(id, 0, 0, ProposeStep, map[], None, -1, None, -1, [], [], {}, {}, {}, false)
  }

  predicate IsValid(v: Option<string>) {
    v.Some? && !("INVALID" <= v.value)
  }

  function VoteOf(s: NodeState, phase: Phase, vid: Option<string>): Msg {
    Msg(Vote(phase), s.h, s.round, s.id, None, vid, -1)
  }

  // ---------- looking at the log ----------

  datatype Wanted = AnyValue | Exactly(vid: Option<string>)

  predicate Counts(m: Msg, phase: Phase, height: int, round: int, wanted: Wanted) {
    m.kind == Vote(phase) && m.height == height && m.round == round && (wanted.Exactly? ==> m.vid == wanted.vid)
  }

  function VotersIn(log: seq<Msg>, phase: Phase, height: int, round: int, wanted: Wanted): set<int> {
    set m | m in log && Counts(m, phase, height, round, wanted) :: m.sender
  }

  predicate HasQuorum(c: Config, log: seq<Msg>, phase: Phase, height: int, round: int, wanted: Wanted) {
    Power(VotersIn(log, phase, height, round, wanted), c.power) >= c.Quorum()
  }

  predicate IsProposalAt(c: Config, m: Msg, height: int, round: int)
    requires c.power != []
  {
    m.kind == Proposal && m.height == height && m.round == round && m.sender == c.Proposer(height, round)
  }

  /** The first proposal in the log by the proposer of (height, round). */
  function FindProposal(c: Config, log: seq<Msg>, height: int, round: int): (r: Option<Msg>)
    requires c.power != []
    ensures r.Some? ==> r.value in log && IsProposalAt(c, r.value, height, round)
    ensures r.None? ==> forall m :: m in log ==> !IsProposalAt(c, m, height, round)
  {
    if log == [] then None
    else if IsProposalAt(c, log[0], height, round) then Some(log[0])
    else FindProposal(c, log[1..], height, round)
  }

  method CollectVoters(log: seq<Msg>, phase: Phase, height: int, round: int, wanted: Wanted) returns (senders: set<int>)
    ensures senders == VotersIn(log, phase, height, round, wanted)
  {
    senders := {};
    for i := 0 to |log|
      invariant senders == VotersIn(log[..i], phase, height, round, wanted)
    {
      assert log[..i + 1] == log[..i] + [log[i]];
      if Counts(log[i], phase, height, round, wanted) {
        senders := senders + {log[i].sender};
      }
    }
    assert log[..|log|] == log;
  }

  method CheckQuorum(c: Config, log: seq<Msg>, phase: Phase, height: int, round: int, wanted: Wanted) returns (ok: bool)
    ensures ok == HasQuorum(c, log, phase, height, round, wanted)
  {
    var senders := CollectVoters(log, phase, height, round, wanted);
    ok := Power(senders, c.power) >= c.Quorum();
  }

  method SearchProposal(c: Config, log: seq<Msg>, height: int, round: int) returns (r: Option<Msg>)
    requires c.power != []
    ensures r == FindProposal(c, log, height, round)
  {
    var proposer := Proposer(c.power, height, round);
    for i := 0 to |log|
      invariant FindProposal(c, log, height, round) == FindProposal(c, log[i..], height, round)
    {
      var m := log[i];
      if m.kind == Proposal && m.height == height && m.round == round && m.sender == proposer {
        return Some(m);
      }
      assert log[i..][1..] == log[i + 1..];
    }
    return None;
  }

  // ---------- rounds and timeouts ----------

  function AtRound(s: NodeState, round: int): NodeState {
    s.(round := round, step := ProposeStep)
  }

  function ProposalOf(s: NodeState, novel: string): Msg {
    var v := if s.validValue.Some? then s.validValue else Some(novel);
    Msg(Proposal, s.h, s.round, s.id, v, v, s.validRound)
  }

  /** StartRound: the proposer of the round proposes, the others wait for the proposal. */
  function StartedRound(c: Config, s: NodeState, round: int): NodeState
    requires c.power != []
  {
    if c.Proposer(s.h, round) == s.id then AtRound(s, round)
    else AtRound(s, round).(timers := s.timers + [Timer(ProposeTimer, s.h, round)])
  }

  function StartedRoundOut(c: Config, s: NodeState, round: int, novel: string): seq<Msg>
    requires c.power != []
  {
    if c.Proposer(s.h, round) == s.id then [ProposalOf(AtRound(s, round), novel)] else []
  }

  predicate TimerMatters(s: NodeState, t: Timer) {
    && t.height == s.h && t.round == s.round
    && match t.kind
       case ProposeTimer => s.step == ProposeStep
       case PrevoteTimer => s.step == PrevoteStep
       case PrecommitTimer => true
  }

  function RemoveTimer(s: NodeState, i: nat): NodeState
    requires i < |s.timers|
  {
    s.(timers := s.timers[..i] + s.timers[i + 1..])
  }

  /** Timer `i` expires. */
  function TimedOut(c: Config, s: NodeState, i: nat): NodeState
    requires c.power != [] && i < |s.timers|
  {
    var t := s.timers[i];
    var s1 := RemoveTimer(s, i);
    if !TimerMatters(s, t) then s1
    else match t.kind
      case ProposeTimer => s1.(step := PrevoteStep)
      case PrevoteTimer => s1.(step := PrecommitStep)
      case PrecommitTimer => StartedRound(c, s1, s.round + 1)
  }

  function TimedOutOut(c: Config, s: NodeState, i: nat, novel: string): seq<Msg>
    requires c.power != [] && i < |s.timers|
  {
    var t := s.timers[i];
    if !TimerMatters(s, t) then []
    else match t.kind
      case ProposeTimer => [VoteOf(s, Prevote, None)]
      case PrevoteTimer => [VoteOf(s, Precommit, None)]
      case PrecommitTimer => StartedRoundOut(c, s, s.round + 1, novel)
  }

  // ---------- the rules ----------

  datatype Rule = ProposalInitial | ProposalWithVr | PrevoteAny | Lock | PrevoteNil | PrecommitAny | Decide | RoundSkip

  /** The prevote for a proposed value: the value itself if it is valid and the lock permits it. */
  function PrevoteFor(s: NodeState, v: Option<string>, unlocked: bool): Option<string> {
    if IsValid(v) && (unlocked || s.lockedValue == v) then v else None
  }

  ghost predicate ProposalInitialEnabled(c: Config, s: NodeState)
    requires c.power != []
  {
    var m := FindProposal(c, s.log, s.h, s.round);
    s.step == ProposeStep && m.Some? && m.value.validRound == -1
  }

  ghost predicate ProposalWithVrEnabled(c: Config, s: NodeState)
    requires c.power != []
  {
    var m := FindProposal(c, s.log, s.h, s.round);
    && s.step == ProposeStep && m.Some? && 0 <= m.value.validRound < s.round
    && HasQuorum(c, s.log, Prevote, s.h, m.value.validRound, Exactly(m.value.value))
  }

  ghost predicate PrevoteAnyEnabled(c: Config, s: NodeState) {
    s.step == PrevoteStep && (s.h, s.round) !in s.firedPrevote && HasQuorum(c, s.log, Prevote, s.h, s.round, AnyValue)
  }

  ghost predicate LockEnabled(c: Config, s: NodeState)
    requires c.power != []
  {
    var m := FindProposal(c, s.log, s.h, s.round);
    && s.step != ProposeStep && (s.h, s.round) !in s.firedLock
    && m.Some? && IsValid(m.value.value)
    && HasQuorum(c, s.log, Prevote, s.h, s.round, Exactly(m.value.value))
  }

  function Locked(s: NodeState, v: Option<string>): NodeState {
    var s1 := s.(firedLock := s.firedLock + {(s.h, s.round)}, validValue := v, validRound := s.round);
    if s.step == PrevoteStep then s1.(lockedValue := v, lockedRound := s.round, step := PrecommitStep) else s1
  }

  function LockedOut(s: NodeState, v: Option<string>): seq<Msg> {
    if s.step == PrevoteStep then [VoteOf(s, Precommit, v)] else []
  }

  ghost predicate PrevoteNilEnabled(c: Config, s: NodeState) {
    s.step == PrevoteStep && HasQuorum(c, s.log, Prevote, s.h, s.round, Exactly(None))
  }

  ghost predicate PrecommitAnyEnabled(c: Config, s: NodeState) {
    (s.h, s.round) !in s.firedPrecommit && HasQuorum(c, s.log, Precommit, s.h, s.round, AnyValue)
  }

  function ScheduledPrevote(s: NodeState): NodeState {
    s.(firedPrevote := s.firedPrevote + {(s.h, s.round)}, timers := s.timers + [Timer(PrevoteTimer, s.h, s.round)])
  }

  function ScheduledPrecommit(s: NodeState): NodeState {
    s.(firedPrecommit := s.firedPrecommit + {(s.h, s.round)}, timers := s.timers + [Timer(PrecommitTimer, s.h, s.round)])
  }

  /** Value `v` has a proposal and a quorum of precommits in `round` of the current height. */
  predicate Decidable(c: Config, log: seq<Msg>, height: int, round: int, v: string)
    requires c.power != []
  {
    && IsValid(Some(v))
    && HasQuorum(c, log, Precommit, height, round, Exactly(Some(v)))
    && exists m :: m in log && IsProposalAt(c, m, height, round) && m.value == Some(v)
  }

  /** A decidable value of the first round that has one. */
  ghost predicate MayDecide(c: Config, s: NodeState, round: int, v: string)
    requires c.power != []
  {
    && s.h !in s.decisions && Decidable(c, s.log, s.h, round, v)
    && forall r, u :: r < round ==> !Decidable(c, s.log, s.h, r, u)
  }

  ghost predicate DecideEnabled(c: Config, s: NodeState)
    requires c.power != []
  {
    s.h !in s.decisions && exists r, v :: Decidable(c, s.log, s.h, r, v)
  }

  function FromHeight(log: seq<Msg>, height: int): seq<Msg> {
    if log == [] then []
    else if log[0].height >= height then [log[0]] + FromHeight(log[1..], height)
    else FromHeight(log[1..], height)
  }

  function Unlocked(s: NodeState): NodeState {
    s.(lockedValue := None, lockedRound := -1, validValue := None, validRound := -1)
  }

  function Unflagged(s: NodeState): NodeState {
    s.(timers := [], firedPrevote := {}, firedPrecommit := {}, firedLock := {})
  }

  /** The state reset for the next height. */
  function NextHeight(s: NodeState): NodeState {
    Unflagged(Unlocked(s)).(h := s.h + 1, round := 0, step := ProposeStep, log := FromHeight(s.log, s.h + 1))
  }

  function DecidedState(c: Config, s: NodeState, v: string): NodeState
    requires c.power != []
  {
    var s1 := s.(decisions := s.decisions[s.h := v]);
    if s.h + 1 < c.numHeights then StartedRound(c, NextHeight(s1), 0) else s1.(h := s.h + 1, done := true)
  }

  function DecidedOut(c: Config, s: NodeState, novel: string): seq<Msg>
    requires c.power != []
  {
    if s.h + 1 < c.numHeights then StartedRoundOut(c, NextHeight(s), 0, novel) else []
  }

  function SendersAt(log: seq<Msg>, height: int, round: int): set<int> {
    set m | m in log && m.height == height && m.round == round :: m.sender
  }

  /** Senders of power f+1 have sent messages of a later round. */
  predicate CanSkip(c: Config, log: seq<Msg>, height: int, current: int, round: int) {
    && round > current
    && (exists m :: m in log && m.height == height && m.round == round)
    && Power(SendersAt(log, height, round), c.power) >= c.f + 1
  }

  predicate Skippable(c: Config, s: NodeState, round: int) {
    CanSkip(c, s.log, s.h, s.round, round)
  }

  ghost predicate SkipsTo(c: Config, s: NodeState, round: int) {
    Skippable(c, s, round) && forall r :: Skippable(c, s, r) ==> r <= round
  }

  ghost predicate Enabled(c: Config, s: NodeState, rule: Rule)
    requires c.power != []
  {
    match rule
    case ProposalInitial => ProposalInitialEnabled(c, s)
    case ProposalWithVr => ProposalWithVrEnabled(c, s)
    case PrevoteAny => PrevoteAnyEnabled(c, s)
    case Lock => LockEnabled(c, s)
    case PrevoteNil => PrevoteNilEnabled(c, s)
    case PrecommitAny => PrecommitAnyEnabled(c, s)
    case Decide => DecideEnabled(c, s)
    case RoundSkip => exists r :: Skippable(c, s, r)
  }

  /** The rule fires and reports a change. `pick` is the round (and value) a decision or a skip is for. */
  ghost predicate Fires(c: Config, s: NodeState, rule: Rule, round: int, v: string, novel: string, s': NodeState, out: seq<Msg>)
    requires c.power != []
  {
    var m := FindProposal(c, s.log, s.h, s.round);
    match rule
    case ProposalInitial =>
      && ProposalInitialEnabled(c, s) && s' == s.(step := PrevoteStep)
      && out == [VoteOf(s, Prevote, PrevoteFor(s, m.value.value, s.lockedRound == -1))]
    case ProposalWithVr =>
      && ProposalWithVrEnabled(c, s) && s' == s.(step := PrevoteStep)
      && out == [VoteOf(s, Prevote, PrevoteFor(s, m.value.value, s.lockedRound <= m.value.validRound))]
    case PrevoteAny => PrevoteAnyEnabled(c, s) && s' == ScheduledPrevote(s) && out == []
    case Lock => LockEnabled(c, s) && s' == Locked(s, m.value.value) && out == LockedOut(s, m.value.value)
    case PrevoteNil => PrevoteNilEnabled(c, s) && s' == s.(step := PrecommitStep) && out == [VoteOf(s, Precommit, None)]
    case PrecommitAny => PrecommitAnyEnabled(c, s) && s' == ScheduledPrecommit(s) && out == []
    case Decide => MayDecide(c, s, round, v) && s' == DecidedState(c, s, v) && out == DecidedOut(c, s, novel)
    case RoundSkip => SkipsTo(c, s, round) && s' == StartedRound(c, s, round) && out == StartedRoundOut(c, s, round, novel)
  }

  // ---------- the measure of the rule loop ----------

  /** One more than the highest height in the log. */
  ghost function TopHeight(log: seq<Msg>): int {
    if log == [] then 0 else Max(TopHeight(log[1..]), log[0].height + 1)
  }

  /** One more than the highest round in the log at this height. */
  ghost function TopRound(log: seq<Msg>, height: int): int {
    if log == [] then 0
    else if log[0].height == height then Max(TopRound(log[1..], height), log[0].round + 1)
    else TopRound(log[1..], height)
  }

  function Max(a: int, b: int): int {
    if a < b then b else a
  }

  /** Heights left in the log, later rounds left in the log, steps left in the round, flags not yet fired. */
  datatype Measure = Measure(heights: nat, rounds: nat, steps: nat, flags: nat)

  ghost predicate Below(a: Measure, b: Measure) {
    || a.heights < b.heights
    || (a.heights == b.heights && a.rounds < b.rounds)
    || (a.heights == b.heights && a.rounds == b.rounds && a.steps < b.steps)
    || (a.heights == b.heights && a.rounds == b.rounds && a.steps == b.steps && a.flags < b.flags)
  }

  ghost function MeasureOf(s: NodeState): Measure {
    var key := (s.h, s.round);
    Measure(
      Max(0, TopHeight(s.log) - s.h),
      Max(0, TopRound(s.log, s.h) - s.round),
      match s.step case ProposeStep => 2 case PrevoteStep => 1 case PrecommitStep => 0,
      (if key in s.firedPrevote then 0 else 1) + (if key in s.firedPrecommit then 0 else 1) + (if key in s.firedLock then 0 else 1))
  }

  lemma {:induction false} TopsCover(log: seq<Msg>, m: Msg)
    requires m in log
    ensures m.height < TopHeight(log) && m.round < TopRound(log, m.height)
  {
    if m != log[0] {
      TopsCover(log[1..], m);
    }
  }

  lemma {:induction false} TopHeightOfSuffix(log: seq<Msg>, height: int)
    ensures TopHeight(FromHeight(log, height)) <= TopHeight(log)
  {
    if log != [] {
      TopHeightOfSuffix(log[1..], height);
      if log[0].height >= height {
        assert FromHeight(log, height)[1..] == FromHeight(log[1..], height);
      }
    }
  }

  lemma QuorumHasVote(c: Config, log: seq<Msg>, phase: Phase, height: int, round: int, wanted: Wanted) returns (m: Msg)
    requires HasQuorum(c, log, phase, height, round, wanted)
    ensures m in log && Counts(m, phase, height, round, wanted)
  {
    if forall m :: m in log ==> !Counts(m, phase, height, round, wanted) {
      assert VotersIn(log, phase, height, round, wanted) == {};
      PowerOfNone(c.power);
    }
    m :| m in log && Counts(m, phase, height, round, wanted);
  }

  lemma {:induction false} PowerOfNone(power: seq<nat>)
    ensures Power({}, power) == 0
  {
    if power != [] {
      PowerOfNone(power[..|power| - 1]);
    }
  }

  lemma DecideDecreases(c: Config, s: NodeState, round: int, v: string)
    requires c.power != [] && MayDecide(c, s, round, v)
    ensures Below(MeasureOf(DecidedState(c, s, v)), MeasureOf(s))
  {
    var m := QuorumHasVote(c, s.log, Precommit, s.h, round, Exactly(Some(v)));
    TopsCover(s.log, m);
    TopHeightOfSuffix(s.log, s.h + 1);
  }

  lemma SkipDecreases(c: Config, s: NodeState, round: int)
    requires c.power != [] && Skippable(c, s, round)
    ensures Below(MeasureOf(StartedRound(c, s, round)), MeasureOf(s))
  {
    var m :| m in s.log && m.height == s.h && m.round == round;
    TopsCover(s.log, m);
  }

  /** Every rule that reports a change brings the loop of rules closer to its end, whatever the log holds. */
  lemma RuleDecreases(c: Config, s: NodeState, rule: Rule, round: int, v: string, novel: string, s': NodeState, out: seq<Msg>)
    requires c.power != [] && Fires(c, s, rule, round, v, novel, s', out)
    ensures Below(MeasureOf(s'), MeasureOf(s))
  {
    match rule
    case Decide => DecideDecreases(c, s, round, v);
    case RoundSkip => SkipDecreases(c, s, round);
    case _ =>
  }

  /** One rule firing, and chains of firings from one state to another. */
  datatype Firing = Firing(pre: NodeState, rule: Rule, round: int, v: string, novel: string, out: seq<Msg>, post: NodeState)

  ghost predicate FiringOk(c: Config, f: Firing)
    requires c.power != []
  {
    Fires(c, f.pre, f.rule, f.round, f.v, f.novel, f.post, f.out)
  }

  ghost predicate Chain(c: Config, s: NodeState, fs: seq<Firing>, s': NodeState)
    requires c.power != []
  {
    if fs == [] then s' == s
    else
      var last := fs[|fs| - 1];
      FiringOk(c, last) && last.post == s' && Chain(c, s, fs[..|fs| - 1], last.pre)
  }

  ghost function Outs(fs: seq<Firing>): seq<Msg> {
    if fs == [] then [] else Outs(fs[..|fs| - 1]) + fs[|fs| - 1].out
  }

  lemma ChainExtends(c: Config, s: NodeState, fs: seq<Firing>, f: Firing)
    requires c.power != [] && Chain(c, s, fs, f.pre) && FiringOk(c, f)
    ensures Chain(c, s, fs + [f], f.post) && Outs(fs + [f]) == Outs(fs) + f.out
  {
    assert (fs + [f])[..|fs|] == fs;
  }

  lemma {:induction false} OutsJoin(fs: seq<Firing>, gs: seq<Firing>)
    ensures Outs(fs + gs) == Outs(fs) + Outs(gs)
  {
    if gs == [] {
      assert fs + gs == fs;
    } else {
      var front := gs[..|gs| - 1];
      OutsJoin(fs, front);
      assert (fs + gs)[..|fs + gs| - 1] == fs + front;
    }
  }

  lemma {:induction false} ChainsJoin(c: Config, s: NodeState, fs: seq<Firing>, mid: NodeState, gs: seq<Firing>, s': NodeState)
    requires c.power != [] && Chain(c, s, fs, mid) && Chain(c, mid, gs, s')
    ensures Chain(c, s, fs + gs, s')
  {
    if gs == [] {
      assert fs + gs == fs;
    } else {
      var front, last := gs[..|gs| - 1], gs[|gs| - 1];
      ChainsJoin(c, s, fs, mid, front, last.pre);
      assert (fs + gs)[..|fs + gs| - 1] == fs + front;
    }
  }

  lemma {:induction false} ChainDecreases(c: Config, s: NodeState, fs: seq<Firing>, s': NodeState)
    requires c.power != [] && Chain(c, s, fs, s') && fs != []
    ensures Below(MeasureOf(s'), MeasureOf(s))
  {
    var f := fs[|fs| - 1];
    RuleDecreases(c, f.pre, f.rule, f.round, f.v, f.novel, f.post, f.out);
    if |fs| > 1 {
      ChainDecreases(c, s, fs[..|fs| - 1], f.pre);
    }
  }

  // ---------- loops of the decision and skip rules ----------

  method FilterFromHeight(log: seq<Msg>, height: int) returns (kept: seq<Msg>)
    ensures kept == FromHeight(log, height)
  {
    kept := [];
    for i := 0 to |log|
      invariant FromHeight(log, height) == kept + FromHeight(log[i..], height)
    {
      assert log[i..][1..] == log[i + 1..];
      if log[i].height >= height {
        kept := kept + [log[i]];
      }
    }
  }

  method Least(s: set<int>) returns (k: int)
    requires s != {}
    ensures k in s && forall i :: i in s ==> k <= i
  {
    NonEmpty(s);
    k :| k in s;
    var rest := s - {k};
    while rest != {}
      invariant rest <= s && k in s
      invariant forall i :: i in s && i !in rest ==> k <= i
      decreases rest
    {
      NonEmpty(rest);
      var i :| i in rest;
      if i < k {
        k := i;
      }
      rest := rest - {i};
    }
  }

  method FindProposalFor(c: Config, log: seq<Msg>, height: int, round: int, v: string) returns (found: bool)
    requires c.power != []
    ensures found <==> exists m :: m in log && IsProposalAt(c, m, height, round) && m.value == Some(v)
  {
    var proposer := Proposer(c.power, height, round);
    for i := 0 to |log|
      invariant forall m :: m in log[..i] ==> !(IsProposalAt(c, m, height, round) && m.value == Some(v))
    {
      var m := log[i];
      if m.kind == Proposal && m.height == height && m.round == round && m.sender == proposer && m.value == Some(v) {
        assert m in log && IsProposalAt(c, m, height, round);
        return true;
      }
      assert log[..i + 1] == log[..i] + [m];
    }
    assert log[..|log|] == log;
    return false;
  }

  /** The identifiers precommitted in one round, tried in any order. */
  method SearchRound(c: Config, log: seq<Msg>, height: int, round: int) returns (found: bool, v: string)
    requires c.power != []
    ensures found ==> Decidable(c, log, height, round, v)
    ensures !found ==> forall u :: !Decidable(c, log, height, round, u)
  {
    found, v := false, "";
    var ids := set m | m in log && m.kind == Vote(Precommit) && m.height == height && m.round == round && m.vid.Some? :: m.vid.value;
    var rest := ids;
    while rest != {}
      invariant rest <= ids
      invariant forall u :: u in ids && u !in rest ==> !Decidable(c, log, height, round, u)
      decreases rest
    {
      var u :| u in rest;
      rest := rest - {u};
      var quorum := CheckQuorum(c, log, Precommit, height, round, Exactly(Some(u)));
      if quorum {
        var proposed := FindProposalFor(c, log, height, round, u);
        if proposed && IsValid(Some(u)) {
          return true, u;
        }
      }
    }
    forall u ensures Decidable(c, log, height, round, u) ==> u in ids {
      DecidableHasVote(c, log, height, round, u);
    }
  }

  lemma DecidableHasVote(c: Config, log: seq<Msg>, height: int, round: int, u: string)
    requires c.power != []
    ensures Decidable(c, log, height, round, u)
            ==> exists m :: m in log && m.kind == Vote(Precommit) && m.height == height && m.round == round && m.vid == Some(u)
  {
    if Decidable(c, log, height, round, u) {
      var m := QuorumHasVote(c, log, Precommit, height, round, Exactly(Some(u)));
    }
  }

  method SearchDecision(c: Config, log: seq<Msg>, height: int) returns (found: bool, round: int, v: string)
    requires c.power != []
    ensures found ==> Decidable(c, log, height, round, v) && forall r, u :: r < round ==> !Decidable(c, log, height, r, u)
    ensures !found ==> forall r, u :: !Decidable(c, log, height, r, u)
  {
    found, round, v := false, 0, "";
    var rounds := set m | m in log && m.kind == Vote(Precommit) && m.height == height :: m.round;
    var rest := rounds;
    while rest != {}
      invariant rest <= rounds
      invariant forall r, u :: r in rounds && r !in rest ==> !Decidable(c, log, height, r, u)
      decreases rest
    {
      round := Least(rest);
      found, v := SearchRound(c, log, height, round);
      if found {
        forall r, u | r < round ensures !Decidable(c, log, height, r, u) {
          NotDecidableOutside(c, log, height, rounds, r, u);
        }
        return;
      }
      rest := rest - {round};
    }
    forall r, u ensures !Decidable(c, log, height, r, u) {
      NotDecidableOutside(c, log, height, rounds, r, u);
    }
  }

  lemma NotDecidableOutside(c: Config, log: seq<Msg>, height: int, rounds: set<int>, r: int, u: string)
    requires c.power != []
    requires rounds == set m | m in log && m.kind == Vote(Precommit) && m.height == height :: m.round
    ensures Decidable(c, log, height, r, u) ==> r in rounds
  {
    DecidableHasVote(c, log, height, r, u);
  }

  /** The highest later round to which f+1 of power have moved. */
  method SearchSkip(c: Config, log: seq<Msg>, height: int, current: int) returns (found: bool, best: int)
    ensures found ==> CanSkip(c, log, height, current, best) && forall r :: CanSkip(c, log, height, current, r) ==> r <= best
    ensures !found ==> forall r :: !CanSkip(c, log, height, current, r)
  {
    found, best := false, 0;
    var higher := set m | m in log && m.height == height && m.round > current :: m.round;
    var rest := higher;
    while rest != {}
      invariant rest <= higher
      invariant found ==> CanSkip(c, log, height, current, best)
      invariant forall r :: r in higher && r !in rest && CanSkip(c, log, height, current, r) ==> found && r <= best
      decreases rest
    {
      NonEmpty(rest);
      var r :| r in rest;
      rest := rest - {r};
      var senders := SendersAt(log, height, r);
      if Power(senders, c.power) >= c.f + 1 && (!found || r > best) {
        found, best := true, r;
      }
    }
  }

  // ---------- the node ----------

  lemma RuleListed(rule: Rule, order: seq<Rule>)
    requires order == [ProposalInitial, ProposalWithVr, PrevoteAny, Lock, PrevoteNil, PrecommitAny, Decide, RoundSkip]
    ensures rule in order
  {
    assert order[0] == ProposalInitial && order[1] == ProposalWithVr && order[2] == PrevoteAny && order[3] == Lock;
    assert order[4] == PrevoteNil && order[5] == PrecommitAny && order[6] == Decide && order[7] == RoundSkip;
  }

  class Node {
    const c: Config
    const id: int
    /** The new values that the node makes up, one after the other. */
    const values: nat -> string
    var counter: nat
    var h: int
    var round: int
    var step: StepName
    var decisions: map<int, string>
    var lockedValue: Option<string>
    var lockedRound: int
    var validValue: Option<string>
    var validRound: int
    var log: seq<Msg>
    var timers: seq<Timer>
    var firedPrevote: set<(int, int)>
    var firedPrecommit: set<(int, int)>
    var firedLock: set<(int, int)>
    var done: bool

    ghost function View(): NodeState
      reads this
    {
      NodeState(id, h, round, step, decisions, lockedValue, lockedRound, validValue, validRound,
                log, timers, firedPrevote, firedPrecommit, firedLock, done)
    }

    constructor (c: Config, id: int, values: nat -> string)
      ensures this.c == c && this.values == values && counter == 0 && View() == NewNode(id)
    {
      this.c, this.id, this.values, counter := c, id, values, 0;
      h, round, step, decisions := 0, 0, ProposeStep, map[];
      lockedValue, lockedRound, validValue, validRound := None, -1, None, -1;
      log, timers := [], [];
      firedPrevote, firedPrecommit, firedLock, done := {}, {}, {}, false;
    }

    method Deliver(m: Msg)
      modifies this`log
      ensures View() == old(View()).(log := old(log) + [m])
    {
      log := log + [m];
    }

    method GetValue() returns (v: string)
      modifies this`counter
      ensures v == values(old(counter)) && counter == old(counter) + 1
    {
      v := values(counter);
      counter := counter + 1;
    }

    /** A proposal without a valid value takes the next new value, and no value is taken twice. */
    method StartRound(rnd: int) returns (out: seq<Msg>)
      requires c.power != []
      modifies this`round, this`step, this`timers, this`counter
      ensures View() == StartedRound(c, old(View()), rnd) && out == StartedRoundOut(c, old(View()), rnd, values(old(counter)))
      ensures counter == old(counter) + if c.Proposer(h, rnd) == id && validValue.None? then 1 else 0
    {
      out := [];
      round, step := rnd, ProposeStep;
      var proposer := Proposer(c.power, h, rnd);
      if proposer == id {
        var v := validValue;
        if v.None? {
          var novel := GetValue();
          v := Some(novel);
        }
        out := [Msg(Proposal, h, round, id, v, v, validRound)];
      } else {
        timers := timers + [Timer(ProposeTimer, h, rnd)];
      }
    }

    method OnTimer(i: nat) returns (out: seq<Msg>)
      requires c.power != [] && i < |timers|
      modifies this`round, this`step, this`timers, this`counter
      ensures View() == TimedOut(c, old(View()), i) && out == TimedOutOut(c, old(View()), i, values(old(counter)))
    {
      out := [];
      var t := timers[i];
      timers := timers[..i] + timers[i + 1..];
      if t.height == h && t.round == round {
        match t.kind {
          case ProposeTimer =>
            if step == ProposeStep {
              out := [Msg(Vote(Prevote), h, round, id, None, None, -1)];
              step := PrevoteStep;
            }
          case PrevoteTimer =>
            if step == PrevoteStep {
              out := [Msg(Vote(Precommit), h, round, id, None, None, -1)];
              step := PrecommitStep;
            }
          case PrecommitTimer =>
            out := StartRound(round + 1);
        }
      }
    }

    /** What each rule promises: it fires exactly when it is enabled, and otherwise changes nothing. */
    twostate predicate Ran(rule: Rule, r: int, v: string, novel: string, changed: bool, out: seq<Msg>)
      requires c.power != []
      reads this
    {
      if changed then Fires(c, old(View()), rule, r, v, novel, View(), out)
      else View() == old(View()) && out == [] && !Enabled(c, old(View()), rule)
    }

    method RuleProposalInitial() returns (changed: bool, out: seq<Msg>)
      requires c.power != []
      modifies this`step
      ensures Ran(ProposalInitial, 0, "", "", changed, out)
    {
      changed, out := false, [];
      if step != ProposeStep {
        return;
      }
      var m := SearchProposal(c, log, h, round);
      if m.None? || m.value.validRound != -1 {
        return;
      }
      var v := m.value.value;
      if IsValid(v) && (lockedRound == -1 || lockedValue == v) {
        out := [Msg(Vote(Prevote), h, round, id, None, v, -1)];
      } else {
        out := [Msg(Vote(Prevote), h, round, id, None, None, -1)];
      }
      step := PrevoteStep;
      changed := true;
    }

    method RuleProposalWithVr() returns (changed: bool, out: seq<Msg>)
      requires c.power != []
      modifies this`step
      ensures Ran(ProposalWithVr, 0, "", "", changed, out)
    {
      changed, out := false, [];
      if step != ProposeStep {
        return;
      }
      var m := SearchProposal(c, log, h, round);
      if m.None? {
        return;
      }
      var vr, v := m.value.validRound, m.value.value;
      if vr < 0 || vr >= round {
        return;
      }
      var quorum := CheckQuorum(c, log, Prevote, h, vr, Exactly(v));
      if !quorum {
        return;
      }
      if IsValid(v) && (lockedRound <= vr || lockedValue == v) {
        out := [Msg(Vote(Prevote), h, round, id, None, v, -1)];
      } else {
        out := [Msg(Vote(Prevote), h, round, id, None, None, -1)];
      }
      step := PrevoteStep;
      changed := true;
    }

    method RulePrevoteTimer() returns (changed: bool, out: seq<Msg>)
      requires c.power != []
      modifies this`firedPrevote, this`timers
      ensures Ran(PrevoteAny, 0, "", "", changed, out)
    {
      changed, out := false, [];
      if step != PrevoteStep || (h, round) in firedPrevote {
        return;
      }
      var quorum := CheckQuorum(c, log, Prevote, h, round, AnyValue);
      if !quorum {
        return;
      }
      firedPrevote := firedPrevote + {(h, round)};
      timers := timers + [Timer(PrevoteTimer, h, round)];
      changed := true;
    }

    method TakeLock(v: Option<string>) returns (out: seq<Msg>)
      modifies this`firedLock, this`lockedValue, this`lockedRound, this`step, this`validValue, this`validRound
      ensures View() == Locked(old(View()), v) && out == LockedOut(old(View()), v)
    {
      out := [];
      firedLock := firedLock + {(h, round)};
      if step == PrevoteStep {
        lockedValue, lockedRound := v, round;
        out := [Msg(Vote(Precommit), h, round, id, None, v, -1)];
        step := PrecommitStep;
      }
      validValue, validRound := v, round;
    }

    method RuleLockPrecommit() returns (changed: bool, out: seq<Msg>)
      requires c.power != []
      modifies this`firedLock, this`lockedValue, this`lockedRound, this`step, this`validValue, this`validRound
      ensures Ran(Lock, 0, "", "", changed, out)
    {
      changed, out := false, [];
      if step == ProposeStep || (h, round) in firedLock {
        return;
      }
      var m := SearchProposal(c, log, h, round);
      if m.None? || !IsValid(m.value.value) {
        return;
      }
      var v := m.value.value;
      var quorum := CheckQuorum(c, log, Prevote, h, round, Exactly(v));
      if !quorum {
        return;
      }
      out := TakeLock(v);
      changed := true;
    }

    method RulePrevoteNil() returns (changed: bool, out: seq<Msg>)
      requires c.power != []
      modifies this`step
      ensures Ran(PrevoteNil, 0, "", "", changed, out)
    {
      changed, out := false, [];
      if step != PrevoteStep {
        return;
      }
      var quorum := CheckQuorum(c, log, Prevote, h, round, Exactly(None));
      if !quorum {
        return;
      }
      out := [Msg(Vote(Precommit), h, round, id, None, None, -1)];
      step := PrecommitStep;
      changed := true;
    }

    method RulePrecommitTimer() returns (changed: bool, out: seq<Msg>)
      requires c.power != []
      modifies this`firedPrecommit, this`timers
      ensures Ran(PrecommitAny, 0, "", "", changed, out)
    {
      changed, out := false, [];
      if (h, round) in firedPrecommit {
        return;
      }
      var quorum := CheckQuorum(c, log, Precommit, h, round, AnyValue);
      if !quorum {
        return;
      }
      firedPrecommit := firedPrecommit + {(h, round)};
      timers := timers + [Timer(PrecommitTimer, h, round)];
      changed := true;
    }

    method ClearLocks()
      modifies this`lockedValue, this`lockedRound, this`validValue, this`validRound
      ensures View() == Unlocked(old(View()))
    {
      lockedValue, lockedRound, validValue, validRound := None, -1, None, -1;
    }

    method ClearFlags()
      modifies this`timers, this`firedPrevote, this`firedPrecommit, this`firedLock
      ensures View() == Unflagged(old(View()))
    {
      timers, firedPrevote, firedPrecommit, firedLock := [], {}, {}, {};
    }

    method ResetForNewHeight()
      modifies this
      ensures View() == NextHeight(old(View())) && counter == old(counter)
    {
      ClearLocks();
      ClearFlags();
      h, round, step := h + 1, 0, ProposeStep;
      log := FilterFromHeight(log, h);
    }

    method RuleDecide() returns (changed: bool, out: seq<Msg>, ghost r: int, ghost v: string)
      requires c.power != []
      modifies this
      ensures Ran(Decide, r, v, values(old(counter)), changed, out) && counter >= old(counter)
    {
      changed, out, r, v := false, [], 0, "";
      if h in decisions {
        return;
      }
      var found, rnd, value := SearchDecision(c, log, h);
      r, v := rnd, value;
      if !found {
        return;
      }
      out := Settle(value);
      changed := true;
    }

    /** Records the decision and starts the next height, if there is one. */
    method Settle(value: string) returns (out: seq<Msg>)
      requires c.power != []
      modifies this
      ensures View() == DecidedState(c, old(View()), value) && out == DecidedOut(c, old(View()), values(old(counter)))
      ensures counter >= old(counter)
    {
      out := [];
      decisions := decisions[h := value];
      if h + 1 < c.numHeights {
        ResetForNewHeight();
        out := StartRound(0);
      } else {
        h, done := h + 1, true;
      }
    }

    method RuleRoundSkip() returns (changed: bool, out: seq<Msg>, ghost r: int)
      requires c.power != []
      modifies this`round, this`step, this`timers, this`counter
      ensures Ran(RoundSkip, r, "", values(old(counter)), changed, out) && counter >= old(counter)
    {
      changed, out := false, [];
      var found, best := SearchSkip(c, log, h, round);
      r := best;
      if found {
        assert SkipsTo(c, View(), best);
        out := StartRound(best);
        changed := true;
      }
    }

    method Attempt(rule: Rule) returns (changed: bool, out: seq<Msg>, ghost f: Firing)
      requires c.power != []
      modifies this
      ensures changed ==> FiringOk(c, f) && f.rule == rule && f.pre == old(View()) && f.post == View() && f.out == out
      ensures counter >= old(counter)
      ensures !changed ==> View() == old(View()) && out == [] && !Enabled(c, View(), rule)
    {
      ghost var r, v, used := 0, "", "";
      match rule {
        case ProposalInitial => changed, out := RuleProposalInitial();
        case ProposalWithVr => changed, out := RuleProposalWithVr();
        case PrevoteAny => changed, out := RulePrevoteTimer();
        case Lock => changed, out := RuleLockPrecommit();
        case PrevoteNil => changed, out := RulePrevoteNil();
        case PrecommitAny => changed, out := RulePrecommitTimer();
        case Decide =>
          changed, out, r, v := RuleDecide();
          used := values(old(counter));
        case RoundSkip =>
          changed, out, r := RuleRoundSkip();
          used := values(old(counter));
      }
      f := Firing(old(View()), rule, r, v, used, out, View());
    }

    /** One pass over the rules, in their fixed order: a chain of rule firings. If it reports no change,
        no rule is enabled. */
    method TryRules() returns (changed: bool, out: seq<Msg>, ghost fs: seq<Firing>)
      requires c.power != []
      modifies this
      ensures Chain(c, old(View()), fs, View()) && out == Outs(fs) && changed == (fs != [])
      ensures !changed ==> forall rule :: !Enabled(c, View(), rule)
      ensures counter >= old(counter)
    {
      var order := [ProposalInitial, ProposalWithVr, PrevoteAny, Lock, PrevoteNil, PrecommitAny, Decide, RoundSkip];
      changed, out, fs := false, [], [];
      for i := 0 to |order|
        invariant Chain(c, old(View()), fs, View()) && out == Outs(fs) && changed == (fs != [])
        invariant !changed ==> forall j :: 0 <= j < i ==> !Enabled(c, View(), order[j])
        invariant counter >= old(counter)
      {
        var fired, more, f := Attempt(order[i]);
        if fired {
          ChainExtends(c, old(View()), fs, f);
          fs := fs + [f];
        }
        changed, out := changed || fired, out + more;
      }
      if !changed {
        forall rule ensures !Enabled(c, View(), rule) {
          RuleListed(rule, order);
          var j :| 0 <= j < |order| && order[j] == rule;
        }
      }
    }

    /** The loop that applies the rules until nothing changes. It ends by the measure alone; the bound of
        1000 passes can only cut it short, and if it does not, no rule is enabled any more. */
    method RunRules() returns (out: seq<Msg>, passes: nat, ghost fs: seq<Firing>)
      requires c.power != []
      modifies this
      ensures Chain(c, old(View()), fs, View()) && out == Outs(fs)
      ensures passes <= 1000 ==> forall rule :: !Enabled(c, View(), rule)
      ensures counter >= old(counter)
    {
      var changed;
      changed, out, fs := TryRules();
      passes := 0;
      while changed
        invariant Chain(c, old(View()), fs, View()) && out == Outs(fs)
        invariant !changed ==> forall rule :: !Enabled(c, View(), rule)
        invariant passes <= 1000 && counter >= old(counter)
        decreases MeasureOf(View()).heights, MeasureOf(View()).rounds, MeasureOf(View()).steps, MeasureOf(View()).flags,
                  if changed then 1 else 0
      {
        passes := passes + 1;
        if passes > 1000 {
          break;
        }
        ghost var mid := View();
        var more;
        ghost var gs;
        changed, more, gs := TryRules();
        ChainsJoin(c, old(View()), fs, mid, gs, View());
        OutsJoin(fs, gs);
        if changed {
          ChainDecreases(c, mid, gs, View());
        }
        out, fs := out + more, fs + gs;
      }
    }
  }
}
