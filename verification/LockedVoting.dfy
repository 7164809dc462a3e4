/** The argument that makes two-phase voting with locks safe, over a bare set of votes. A correct
    voter prevotes once per round, precommits a value only after a quorum prevoted it in that round,
    and prevotes a value after precommitting another one only if a quorum prevoted the new value in
    between. Both Tendermint implementations are proved to produce such votes. */
module LockedVoting {
  import opened Quorums

  datatype Option<T> = None | Some(value: T)

  datatype Phase = Prevote | Precommit

  /** A vote for a value, or for nil. */
  datatype Ballot = Ballot(phase: Phase, height: int, round: int, sender: int, value: Option<string>)

  /** Who votes: the power of each voter, the power that makes a quorum, the faulty voters. */
  datatype Electorate = Electorate(power: seq<nat>, quorum: nat, faulty: set<int>)
  {
    predicate Correct(p: int) {
      0 <= p < |power| && p !in faulty
    }

    ghost predicate IsQuorum(voters: set<int>) {
      Power(voters, power) >= quorum
    }

    ghost function CorrectVoters(): set<int> {
      Members(|power|) - faulty
    }

    /** Any two quorums share a correct voter. */
    ghost predicate Overlapping() {
      forall a, b :: IsQuorum(a) && IsQuorum(b) ==> exists p :: p in a && p in b && Correct(p)
    }

    /** The correct voters fall into two parts that both are quorums together with the faulty voters. */
    ghost predicate Splittable() {
      exists part :: part <= CorrectVoters() && IsQuorum(part + faulty) && IsQuorum((CorrectVoters() - part) + faulty)
    }
  }

  /** Quorums overlap in a correct voter exactly when the correct voters cannot be split. */
  lemma OverlappingExactly(el: Electorate)
    ensures el.Overlapping() <==> !el.Splittable()
  {
    if el.Splittable() {
      var part :| part <= el.CorrectVoters() && el.IsQuorum(part + el.faulty) && el.IsQuorum((el.CorrectVoters() - part) + el.faulty);
      SplitQuorumsApart(el, part);
    } else {
      forall a, b | el.IsQuorum(a) && el.IsQuorum(b) ensures exists p :: p in a && p in b && el.Correct(p) {
        NoSplitOverlaps(el, a, b);
      }
    }
  }

  lemma SplitQuorumsApart(el: Electorate, part: set<int>)
    requires part <= el.CorrectVoters() && el.IsQuorum(part + el.faulty) && el.IsQuorum((el.CorrectVoters() - part) + el.faulty)
    ensures !el.Overlapping()
  {
    var a, b := part + el.faulty, (el.CorrectVoters() - part) + el.faulty;
    forall p | p in a && p in b ensures !el.Correct(p) {
      assert p in part ==> p in el.faulty;
    }
  }

  lemma NoSplitOverlaps(el: Electorate, a: set<int>, b: set<int>)
    requires !el.Splittable() && el.IsQuorum(a) && el.IsQuorum(b)
    ensures exists p :: p in a && p in b && el.Correct(p)
  {
    var part := a * el.CorrectVoters();
    PowerMonotone(a, part + el.faulty, el.power);
    if forall p :: p in a && p in b ==> !el.Correct(p) {
      PowerMonotone(b, (el.CorrectVoters() - part) + el.faulty, el.power);
    }
  }

  /** The usual bound on powers. */
  lemma BoundOverlaps(el: Electorate)
    requires Total(el.power) + Power(el.faulty, el.power) < 2 * el.quorum
    ensures el.Overlapping()
  {
    forall a, b | el.IsQuorum(a) && el.IsQuorum(b) ensures exists p :: p in a && p in b && el.Correct(p) {
      var p := CommonCorrectVoter(a, b, el.faulty, el.power);
      assert el.Correct(p);
    }
  }

  lemma CommonVoter(el: Electorate, a: set<int>, b: set<int>) returns (p: int)
    requires el.Overlapping() && Power(a, el.power) >= el.quorum && Power(b, el.power) >= el.quorum
    ensures p in a && p in b && el.Correct(p)
  {
    assert el.IsQuorum(a) && el.IsQuorum(b);
    p :| p in a && p in b && el.Correct(p);
  }

  ghost function Voters(votes: set<Ballot>, phase: Phase, height: int, round: int, value: Option<string>): set<int> {
    set b | b in votes && b.phase == phase && b.height == height && b.round == round && b.value == value :: b.sender
  }

  ghost predicate Quorum(el: Electorate, votes: set<Ballot>, phase: Phase, height: int, round: int, value: Option<string>) {
    Power(Voters(votes, phase, height, round, value), el.power) >= el.quorum
  }

  lemma QuorumGrows(el: Electorate, votes: set<Ballot>, more: set<Ballot>, phase: Phase, height: int, round: int, value: Option<string>)
    requires votes <= more && Quorum(el, votes, phase, height, round, value)
    ensures Quorum(el, more, phase, height, round, value)
  {
    PowerMonotone(Voters(votes, phase, height, round, value), Voters(more, phase, height, round, value), el.power);
  }

  ghost predicate PrevotesOnce(votes: set<Ballot>, p: int) {
    forall a, b :: && a in votes && b in votes && a.sender == b.sender == p && a.phase == b.phase == Prevote
                   && a.height == b.height && a.round == b.round
                   ==> a.value == b.value
  }

  ghost predicate PrecommitsProved(el: Electorate, votes: set<Ballot>, p: int) {
    forall b :: b in votes && b.sender == p && b.phase == Precommit && b.value.Some?
                ==> Quorum(el, votes, Prevote, b.height, b.round, b.value)
  }

  /** A quorum prevoted `value` in some round from `low` up to, but not including, `high`. */
  ghost predicate ProvedBetween(el: Electorate, votes: set<Ballot>, height: int, low: int, high: int, value: Option<string>) {
    exists r :: low <= r < high && Quorum(el, votes, Prevote, height, r, value)
  }

  ghost predicate LocksRespected(el: Electorate, votes: set<Ballot>, p: int, height: int) {
    forall a, b :: && a in votes && b in votes && a.sender == b.sender == p && a.height == b.height == height
                   && a.phase == Precommit && a.value.Some? && b.phase == Prevote && b.value.Some? && a.round < b.round
                   ==> ProvedBetween(el, votes, height, a.round, b.round, b.value)
  }

  ghost predicate Disciplined(el: Electorate, votes: set<Ballot>, height: int) {
    forall p :: el.Correct(p) ==> PrevotesOnce(votes, p) && PrecommitsProved(el, votes, p) && LocksRespected(el, votes, p, height)
  }

  lemma PrevoteQuorumUnique(el: Electorate, votes: set<Ballot>, height: int, round: int, a: Option<string>, b: Option<string>)
    requires el.Overlapping() && Disciplined(el, votes, height)
    requires Quorum(el, votes, Prevote, height, round, a) && Quorum(el, votes, Prevote, height, round, b)
    ensures a == b
  {
    var p := CommonVoter(el, Voters(votes, Prevote, height, round, a), Voters(votes, Prevote, height, round, b));
    assert Ballot(Prevote, height, round, p, a) in votes && Ballot(Prevote, height, round, p, b) in votes;
  }

  /** A quorum has a correct member. */
  lemma QuorumHasCorrect(el: Electorate, voters: set<int>) returns (p: int)
    requires el.Overlapping() && Power(voters, el.power) >= el.quorum
    ensures p in voters && el.Correct(p)
  {
    p := CommonVoter(el, voters, voters);
  }

  lemma PrecommitNeedsPrevote(el: Electorate, votes: set<Ballot>, height: int, round: int, v: Option<string>)
    requires el.Overlapping() && Disciplined(el, votes, height) && v.Some?
    requires Quorum(el, votes, Precommit, height, round, v)
    ensures Quorum(el, votes, Prevote, height, round, v)
  {
    var p := QuorumHasCorrect(el, Voters(votes, Precommit, height, round, v));
  }

  /** After a quorum of precommits for `v`, no later round can gather a quorum of prevotes for another value. */
  lemma {:induction false} PrecommittedStays(el: Electorate, votes: set<Ballot>, height: int, round: int, v: Option<string>,
                                             later: int, u: Option<string>)
    requires el.Overlapping() && Disciplined(el, votes, height) && v.Some? && u.Some? && round <= later
    requires Quorum(el, votes, Precommit, height, round, v) && Quorum(el, votes, Prevote, height, later, u)
    ensures u == v
    decreases later - round
  {
    PrecommitNeedsPrevote(el, votes, height, round, v);
    if round == later {
      PrevoteQuorumUnique(el, votes, height, round, u, v);
    } else {
      var p := CommonVoter(el, Voters(votes, Precommit, height, round, v), Voters(votes, Prevote, height, later, u));
      assert Ballot(Precommit, height, round, p, v) in votes && Ballot(Prevote, height, later, p, u) in votes;
      assert ProvedBetween(el, votes, height, round, later, u);
      var r :| round <= r < later && Quorum(el, votes, Prevote, height, r, u);
      PrecommittedStays(el, votes, height, round, v, r, u);
    }
  }

  lemma PrecommitsAgree(el: Electorate, votes: set<Ballot>, height: int, r1: int, v1: string, r2: int, v2: string)
    requires el.Overlapping() && Disciplined(el, votes, height)
    requires Quorum(el, votes, Precommit, height, r1, Some(v1)) && Quorum(el, votes, Precommit, height, r2, Some(v2))
    ensures v1 == v2
  {
    PrecommitNeedsPrevote(el, votes, height, r1, Some(v1));
    PrecommitNeedsPrevote(el, votes, height, r2, Some(v2));
    if r1 <= r2 {
      PrecommittedStays(el, votes, height, r1, Some(v1), r2, Some(v2));
    } else {
      PrecommittedStays(el, votes, height, r2, Some(v2), r1, Some(v1));
    }
  }
}
