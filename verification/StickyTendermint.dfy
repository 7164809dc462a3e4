/** The Tendermint variant whose locks are given up only for a new prevote quorum: a node locked on a value
    prevotes nil for every other proposal, whatever valid round the proposal cites. Vote tables are filed by
    round alone and cleared when a round starts. */
module StickyTendermint {
  import opened Quorums
  import opened LockedVoting

  datatype Step = Propose | PrevoteStep | PrecommitStep | Commit

  datatype Proposal = Proposal(height: int, round: int, value: string, validRound: Option<int>, sender: int)

  datatype Message = ProposalMsg(proposal: Proposal) | VoteMsg(vote: Ballot)

  /** The votes received in one round, by sender. */
  datatype RoundVote = RoundVote(prevotes: map<int, Ballot>, precommits: map<int, Ballot>)

  const NO_VOTES: RoundVote := RoundVote(map[], map[])

  datatype NodeState = NodeState(
    id: int, height: int, round: int, step: Step, lockedValue: Option<string>, lockedRound: Option<int>,
    validValue: Option<string>, validRound: Option<int>, proposal: Option<Proposal>, votes: map<int, RoundVote>)

  function QuorumOf(n: nat): nat {
    2 * n / 3 + 1
  }

  function Proposer(n: nat, height: int, round: int): int
    requires n > 0
  {
    (height + round) % n
  }

  function NewNode(id: int): NodeState {
    NodeState(id, 1, 0, Propose, None, None, None, None, None, map[])
  }

  /** How many of the collected votes are for `value`. */
  function Tally(votes: map<int, Ballot>, value: Option<string>): nat {
    |set id | id in votes && votes[id].value == value|
  }

  function VotesAt(s: NodeState, round: int): RoundVote {
    if round in s.votes then s.votes[round] else NO_VOTES
  }

  // ---------- rounds ----------

  function StartedRound(s: NodeState, round: int): NodeState {
    s.(round := round, step := Propose, proposal := None, votes := s.votes[round := NO_VOTES])
  }

  /** The proposer of a round offers its valid value, or else a new block. */
  function StartedOut(n: nat, s: NodeState, round: int, block: string): Option<Message>
    requires n > 0
  {
    if Proposer(n, s.height, round) == s.id then
      Some(ProposalMsg(Proposal(s.height, round, if s.validValue.Some? then s.validValue.value else block, s.validRound, s.id)))
    else None
  }

  // ---------- proposals ----------

  predicate ProposalFits(n: nat, s: NodeState, p: Proposal)
    requires n > 0
  {
    s.step == Propose && p.round == s.round && p.height == s.height && p.sender == Proposer(n, s.height, s.round)
  }

  /** What a node prevotes: the proposed value, or nil if it is locked on another one or cannot confirm the
      valid round. */
  function PrevoteFor(n: nat, s: NodeState, p: Proposal): Option<string> {
    if s.lockedValue.Some? && s.lockedValue.value != p.value then None
    else if p.validRound.Some? &&
            !(p.validRound.value in s.votes && Tally(s.votes[p.validRound.value].prevotes, Some(p.value)) >= QuorumOf(n)) then None
    else Some(p.value)
  }

  function ProposalHandled(n: nat, s: NodeState, p: Proposal): NodeState
    requires n > 0
  {
    if ProposalFits(n, s, p) then s.(proposal := Some(p), step := PrevoteStep) else s
  }

  function ProposalOut(n: nat, s: NodeState, p: Proposal): Option<Message>
    requires n > 0
  {
    if ProposalFits(n, s, p) then Some(VoteMsg(Ballot(Prevote, s.height, s.round, s.id, PrevoteFor(n, s, p)))) else None
  }

  // ---------- votes ----------

  function Collected(s: NodeState, v: Ballot): NodeState {
    var rv := VotesAt(s, v.round);
    if v.phase == Prevote then s.(votes := s.votes[v.round := rv.(prevotes := rv.prevotes[v.sender := v])])
    else s.(votes := s.votes[v.round := rv.(precommits := rv.precommits[v.sender := v])])
  }

  predicate VoteFits(s: NodeState, v: Ballot) {
    v.height == s.height && v.round == s.round
  }

  /** The prevote completes a quorum that the node was waiting for. */
  predicate PrevotesFull(n: nat, s: NodeState, v: Ballot) {
    && VoteFits(s, v) && v.phase == Prevote && s.step == PrevoteStep
    && Tally(VotesAt(Collected(s, v), v.round).prevotes, v.value) >= QuorumOf(n)
  }

  predicate PrecommitsFull(n: nat, s: NodeState, v: Ballot) {
    && VoteFits(s, v) && v.phase == Precommit && s.step == PrecommitStep
    && Tally(VotesAt(Collected(s, v), v.round).precommits, v.value) >= QuorumOf(n)
  }

  function Locked(s: NodeState, v: Ballot): NodeState {
    var s1 := if v.value.Some? then s.(lockedValue := v.value, lockedRound := Some(v.round), validValue := v.value, validRound := Some(v.round))
              else s;
    s1.(step := PrecommitStep)
  }

  function VoteHandled(n: nat, s: NodeState, v: Ballot): NodeState {
    if !VoteFits(s, v) then s
    else
      var s1 := Collected(s, v);
      if PrevotesFull(n, s, v) then Locked(s1, v)
      else if PrecommitsFull(n, s, v) then (if v.value.Some? then s1.(step := Commit) else StartedRound(s1, s1.round + 1))
      else s1
  }

  function VoteOut(n: nat, s: NodeState, v: Ballot, block: string): Option<Message>
    requires n > 0
  {
    if PrevotesFull(n, s, v) then Some(VoteMsg(Ballot(Precommit, s.height, s.round, s.id, v.value)))
    else if PrecommitsFull(n, s, v) && v.value.None? then StartedOut(n, s, s.round + 1, block)
    else None
  }

  /** The value that this vote commits. */
  function CommittedBy(n: nat, s: NodeState, v: Ballot): Option<string> {
    if PrecommitsFull(n, s, v) then v.value else None
  }

  // ---------- timeouts ----------

  /** The next height starts without locks. */
  function NextHeight(s: NodeState): NodeState {
    s.(height := s.height + 1, lockedRound := None, lockedValue := None, validRound := None, validValue := None)
  }

  function TimedOut(s: NodeState): NodeState {
    match s.step
    case Propose => s.(step := PrevoteStep)
    case PrevoteStep => s.(step := PrecommitStep)
    case PrecommitStep => StartedRound(s, s.round + 1)
    case Commit => StartedRound(NextHeight(s), 0)
  }

  function TimedOutOut(n: nat, s: NodeState, block: string): Option<Message>
    requires n > 0
  {
    match s.step
    case Propose => Some(VoteMsg(Ballot(Prevote, s.height, s.round, s.id, None)))
    case PrevoteStep => Some(VoteMsg(Ballot(Precommit, s.height, s.round, s.id, None)))
    case PrecommitStep => StartedOut(n, s, s.round + 1, block)
    case Commit => StartedOut(n, NextHeight(s), 0, block)
  }

  // ---------- the node ----------

  class ConsensusState {
    const id: int
    const totalNodes: nat
    var height: int
    var round: int
    var step: Step
    var lockedValue: Option<string>
    var lockedRound: Option<int>
    var validValue: Option<string>
    var validRound: Option<int>
    var proposal: Option<Proposal>
    var votes: map<int, RoundVote>

    function View(): NodeState
      reads this
    {
      NodeState(id, height, round, step, lockedValue, lockedRound, validValue, validRound, proposal, votes)
    }

    constructor (id: int, totalNodes: nat)
      ensures this.totalNodes == totalNodes && View() == NewNode(id)
    {
      this.id, this.totalNodes := id, totalNodes;
      height, round, step, votes := 1, 0, Propose, map[];
      lockedValue, lockedRound, validValue, validRound, proposal := None, None, None, None, None;
    }

    method StartRound(newRound: int, block: string) returns (out: Option<Message>)
      requires totalNodes > 0
      modifies this
      ensures View() == StartedRound(old(View()), newRound) && out == StartedOut(totalNodes, old(View()), newRound, block)
    {
      round := newRound;
      step := Propose;
      proposal := None;
      votes := votes[newRound := NO_VOTES];
      if Proposer(totalNodes, height, round) == id {
        var value := if validValue.Some? then validValue.value else block;
        return Some(ProposalMsg(Proposal(height, round, value, validRound, id)));
      }
      return None;
    }

    method CountFor(table: map<int, Ballot>, value: Option<string>) returns (count: nat)
      ensures count == Tally(table, value)
    {
      count := 0;
      var todo := table.Keys;
      ghost var counted := {};
      while todo != {}
        invariant todo <= table.Keys
        invariant counted == (set id | id in table && id !in todo && table[id].value == value)
        invariant count == |counted|
      {
        NonEmpty(todo);
        var id :| id in todo;
        if table[id].value == value {
          count := count + 1;
          counted := counted + {id};
        }
        todo := todo - {id};
      }
      assert counted == set id | id in table && table[id].value == value;
    }

    method HandleProposal(p: Proposal) returns (out: Option<Message>)
      requires totalNodes > 0
      modifies this`proposal, this`step
      ensures View() == ProposalHandled(totalNodes, old(View()), p) && out == ProposalOut(totalNodes, old(View()), p)
    {
      if step != Propose || p.round != round || p.height != height {
        return None;
      }
      if p.sender != Proposer(totalNodes, height, round) {
        return None;
      }
      var voteValue := Some(p.value);
      if lockedValue.Some? && lockedValue.value != p.value {
        voteValue := None;
      }
      if p.validRound.Some? {
        var count := 0;
        if p.validRound.value in votes {
          count := CountFor(votes[p.validRound.value].prevotes, Some(p.value));
        }
        if count < QuorumOf(totalNodes) {
          voteValue := None;
        }
      }
      proposal := Some(p);
      step := PrevoteStep;
      return Some(VoteMsg(Ballot(Prevote, height, round, id, voteValue)));
    }

    method Collect(v: Ballot) returns (count: nat)
      modifies this`votes
      ensures View() == Collected(old(View()), v)
      ensures count == Tally(if v.phase == Prevote then VotesAt(View(), v.round).prevotes else VotesAt(View(), v.round).precommits, v.value)
    {
      var rv := if v.round in votes then votes[v.round] else NO_VOTES;
      if v.phase == Prevote {
        rv := rv.(prevotes := rv.prevotes[v.sender := v]);
        count := CountFor(rv.prevotes, v.value);
      } else {
        rv := rv.(precommits := rv.precommits[v.sender := v]);
        count := CountFor(rv.precommits, v.value);
      }
      votes := votes[v.round := rv];
    }

    method HandleVote(v: Ballot, block: string) returns (out: Option<Message>)
      requires totalNodes > 0
      modifies this
      ensures View() == VoteHandled(totalNodes, old(View()), v) && out == VoteOut(totalNodes, old(View()), v, block)
    {
      out := None;
      if v.height != height || v.round != round {
        return;
      }
      var count := Collect(v);
      if v.phase == Prevote {
        if count >= QuorumOf(totalNodes) && step == PrevoteStep {
          if v.value.Some? {
            lockedValue, lockedRound := v.value, Some(v.round);
            validValue, validRound := v.value, Some(v.round);
          }
          step := PrecommitStep;
          out := Some(VoteMsg(Ballot(Precommit, height, round, id, v.value)));
        }
      } else if count >= QuorumOf(totalNodes) && step == PrecommitStep {
        if v.value.Some? {
          step := Commit;
        } else {
          out := StartRound(round + 1, block);
        }
      }
    }

    method HandleTimeout(block: string) returns (out: Option<Message>)
      requires totalNodes > 0
      modifies this
      ensures View() == TimedOut(old(View())) && out == TimedOutOut(totalNodes, old(View()), block)
    {
      match step {
        case Propose =>
          step := PrevoteStep;
          out := Some(VoteMsg(Ballot(Prevote, height, round, id, None)));
        case PrevoteStep =>
          step := PrecommitStep;
          out := Some(VoteMsg(Ballot(Precommit, height, round, id, None)));
        case PrecommitStep =>
          out := StartRound(round + 1, block);
        case Commit =>
          height := height + 1;
          lockedRound, lockedValue, validRound, validValue := None, None, None, None;
          out := StartRound(0, block);
      }
    }
  }
}
