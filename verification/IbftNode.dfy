/** The IBFT node: its state, the relation that each handler realises, and the node itself
    as an object whose handlers change its fields in place. A handler returns the messages
    it sends. Lists built from Go maps come in any order. */
module IbftNode {
  import opened IbftMessages
  import opened IbftJustification
  import opened Quorums

  datatype Phase = New | PrePrepared | IsPrepared | Decided

  datatype Config = Config(n: nat, instance: int)

  /** Votes by (round, value) and then by sender. */
  type VoteBook = map<(int, string), map<int, Message>>

  datatype NodeState = NodeState(
    id: int, input: string,
    currentRound: int, preparedRound: int, preparedValue: string,
    phase: Phase, acceptedValue: string, acceptedRound: int,
    prepares: VoteBook, commits: VoteBook, roundChanges: map<int, map<int, Message>>,
    certificate: seq<Message>, decisionValue: string,
    roundChangeSent: set<int>, prePrepareSent: set<int>, commitSent: bool, decided: bool)

  function Started(id: int, input: string): NodeState {
    NodeState(id, input, 1, NO_PREPARED_ROUND, NO_PREPARED_VALUE, New, "", -1,
              map[], map[], map[], [], "", {}, {}, false, false)
  }

  function VotesFor(book: VoteBook, round: int, value: string): map<int, Message> {
    if (round, value) in book then book[(round, value)] else map[]
  }

  function Record(book: VoteBook, m: Message): VoteBook {
    book[(m.round, m.value) := VotesFor(book, m.round, m.value)[m.from := m]]
  }

  function RoundChangesFor(s: NodeState, round: int): map<int, Message> {
    if round in s.roundChanges then s.roundChanges[round] else map[]
  }

  ghost predicate FiledBySender(book: map<int, Message>) {
    forall k :: k in book ==> book[k].from == k
  }

  ghost predicate KeyedVotes(book: VoteBook) {
    forall key :: key in book ==> FiledBySender(book[key])
  }

  lemma RecordKeyed(book: VoteBook, m: Message)
    requires KeyedVotes(book)
    ensures KeyedVotes(Record(book, m)) && FiledBySender(VotesFor(Record(book, m), m.round, m.value))
  {
  }

  ghost predicate KeyedRounds(book: map<int, map<int, Message>>) {
    forall round :: round in book ==> FiledBySender(book[round])
  }

  /** `list` holds each entry of `book` exactly once, in some order. */
  ghost predicate IsListing(list: seq<Message>, book: map<int, Message>) {
    && |list| == |book|
    && (forall k :: k in book ==> book[k] in list)
    && (forall x :: x in list ==> x.from in book && book[x.from] == x)
  }

  // ---------- round entry ----------

  function Entered(s: NodeState, round: int): NodeState {
    if round < s.currentRound then s
    else s.(currentRound := round, phase := New, acceptedValue := "", acceptedRound := -1,
            commits := map[], commitSent := false)
  }

  function OwnPrepares(s: NodeState): map<int, Message> {
    if s.preparedRound == NO_PREPARED_ROUND || s.preparedValue == NO_PREPARED_VALUE then map[]
    else VotesFor(s.prepares, s.preparedRound, s.preparedValue)
  }

  ghost predicate IsRoundChangeOf(c: Config, s: NodeState, round: int, m: Message) {
    && m == Message(RoundChange, s.id, c.instance, round, "", s.preparedRound, s.preparedValue, m.justification)
    && IsListing(m.justification, OwnPrepares(s))
  }

  function Announced(s: NodeState, round: int): NodeState {
    s.(roundChangeSent := s.roundChangeSent + {round})
  }

  /** What broadcastRoundChange sends from state `s`. */
  ghost predicate Announces(c: Config, s: NodeState, round: int, out: seq<Message>) {
    if round in s.roundChangeSent then out == [] else |out| == 1 && IsRoundChangeOf(c, s, round, out[0])
  }

  ghost predicate Advances(c: Config, s: NodeState, round: int, s': NodeState, out: seq<Message>) {
    s' == Announced(Entered(s, round), round) && Announces(c, Entered(s, round), round, out)
  }

  ghost predicate RequestsRound(c: Config, s: NodeState, round: int, s': NodeState, out: seq<Message>) {
    if s.decided || round <= s.currentRound then s' == s && out == [] else Advances(c, s, round, s', out)
  }

  ghost predicate TimesOut(c: Config, s: NodeState, s': NodeState, out: seq<Message>) {
    RequestsRound(c, s, s.currentRound + 1, s', out)
  }

  // ---------- proposing ----------

  ghost predicate MayPropose(c: Config, s: NodeState, round: int) {
    Leader(c.instance, round, c.n) == s.id && s.currentRound == round && round !in s.prePrepareSent
  }

  ghost predicate IsProposalOf(c: Config, signed: set<Payload>, s: NodeState, round: int, m: Message) {
    && m == Message(PrePrepare, s.id, c.instance, round, m.value, NO_PREPARED_ROUND, NO_PREPARED_VALUE, m.justification)
    && if round == 1 then m.value == s.input && m.justification == []
       else
         var qrc := RoundChangesFor(s, round);
         && IsListing(m.justification, qrc)
         && MayJustifyRoundChange(qrc, c.instance, round, c.n, signed)
         && exists hp :: IsHighestPrepared(qrc, hp) && m.value == if hp.Found? then hp.value else s.input
  }

  ghost predicate Proposes(c: Config, signed: set<Payload>, s: NodeState, round: int, s': NodeState, out: seq<Message>) {
    if out == [] then
      && s' == s
      && (MayPropose(c, s, round)
          ==> round != 1 && !MustJustifyRoundChange(RoundChangesFor(s, round), c.instance, round, c.n, signed))
    else
      && MayPropose(c, s, round)
      && |out| == 1 && IsProposalOf(c, signed, s, round, out[0])
      && s' == s.(prePrepareSent := s.prePrepareSent + {round})
  }

  // ---------- message handlers ----------

  ghost predicate OnPrePrepare(c: Config, signed: set<Payload>, s: NodeState, m: Message, s': NodeState, out: seq<Message>) {
    var eligible := m.instance == c.instance && m.round == s.currentRound
                    && m.from == Leader(m.instance, m.round, c.n) && s.phase == New;
    if out == [] then
      s' == s && (eligible ==> !MustJustifyPrePrepare(m, c.n, signed))
    else
      && eligible && MayJustifyPrePrepare(m, c.n, signed)
      && s' == s.(acceptedValue := m.value, acceptedRound := m.round, phase := PrePrepared)
      && out == [Vote(Prepare, s.id, m.instance, m.round, m.value)]
  }

  predicate Relevant(c: Config, s: NodeState, m: Message) {
    && m.instance == c.instance && m.round == s.currentRound
    && s.acceptedValue == m.value && s.acceptedRound == m.round
  }

  function WithPrepare(s: NodeState, m: Message): NodeState {
    s.(prepares := Record(s.prepares, m))
  }

  function WithPrepared(s: NodeState, round: int, value: string): NodeState {
    s.(preparedRound := round, preparedValue := value, phase := IsPrepared, commitSent := true)
  }

  ghost predicate OnPrepare(c: Config, s: NodeState, m: Message, s': NodeState, out: seq<Message>) {
    if !Relevant(c, s, m) then s' == s && out == []
    else if |VotesFor(Record(s.prepares, m), m.round, m.value)| >= QuorumSize(c.n) && s.phase == PrePrepared && !s.commitSent then
      && s' == WithPrepared(WithPrepare(s, m), m.round, m.value)
      && out == [Vote(Commit, s.id, m.instance, m.round, m.value)]
    else s' == WithPrepare(s, m) && out == []
  }

  function WithCommit(s: NodeState, m: Message): NodeState {
    s.(commits := Record(s.commits, m))
  }

  function WithDecision(s: NodeState, value: string, certificate: seq<Message>): NodeState {
    s.(phase := Decided, decided := true, decisionValue := value, certificate := certificate)
  }

  ghost predicate OnCommit(c: Config, s: NodeState, m: Message, s': NodeState, out: seq<Message>) {
    && out == []
    && if !Relevant(c, s, m) then s' == s
       else
         var votes := VotesFor(Record(s.commits, m), m.round, m.value);
         if |votes| >= QuorumSize(c.n) && !s.decided then
           && IsListing(s'.certificate, votes)
           && s' == WithDecision(WithCommit(s, m), m.value, s'.certificate)
         else s' == WithCommit(s, m)
  }

  function WithRoundChange(s: NodeState, m: Message): NodeState {
    s.(roundChanges := s.roundChanges[m.round := RoundChangesFor(s, m.round)[m.from := m]])
  }

  /** The f+1 rule: enough ROUND-CHANGEs for a higher round pull the node into it. */
  ghost predicate CatchesUp(c: Config, s: NodeState, round: int, s': NodeState, out: seq<Message>) {
    if round > s.currentRound && |RoundChangesFor(s, round)| >= RoundChangeSetSize(c.n)
    then Advances(c, s, round, s', out) else s' == s && out == []
  }

  /** `out` is what the f+1 rule sends followed by what the quorum rule sends. */
  ghost predicate OnRoundChange(c: Config, signed: set<Payload>, s: NodeState, m: Message, s': NodeState, out: seq<Message>) {
    if m.instance != c.instance || m.round < s.currentRound
       || (m.preparedRound != NO_PREPARED_ROUND && m.preparedRound >= m.round) then s' == s && out == []
    else
      exists mid, split ::
        && 0 <= split <= |out|
        && CatchesUp(c, WithRoundChange(s, m), m.round, mid, out[..split])
        && OnRoundChangeQuorum(c, signed, mid, m.round, s', out[split..])
  }

  /** The second half of handleRoundChange. */
  ghost predicate OnRoundChangeQuorum(c: Config, signed: set<Payload>, s: NodeState, round: int, s': NodeState, out: seq<Message>) {
    var qrc := RoundChangesFor(s, round);
    var s1 := if round > s.currentRound then Entered(s, round) else s;
    if |qrc| < QuorumSize(c.n) || !MayJustifyRoundChange(qrc, c.instance, round, c.n, signed) then s' == s && out == []
    else
      || (s' == s && out == [] && !MustJustifyRoundChange(qrc, c.instance, round, c.n, signed))
      || (if Leader(c.instance, round, c.n) == s.id then Proposes(c, signed, s1, round, s', out) else s' == s1 && out == [])
  }

  predicate IsCommitFor(m: Message, instance: int, round: int, value: string, n: nat, signed: set<Payload>) {
    IsValidMessage(m, n, signed) && m.kind == Commit && m.instance == instance && m.value == value && m.round == round
  }

  /** A quorum of valid COMMITs of one round for one value. */
  ghost predicate IsCommitCertificate(list: seq<Message>, instance: int, n: nat, signed: set<Payload>) {
    && list != []
    && (forall x :: x in list ==> IsCommitFor(x, instance, list[0].round, list[0].value, n, signed))
    && |set x | x in list :: x.from| >= QuorumSize(n)
  }

  ghost predicate OnDecisionCertificate(c: Config, signed: set<Payload>, s: NodeState, m: Message, s': NodeState, out: seq<Message>) {
    && out == []
    && if m.instance == c.instance && !s.decided && IsCommitCertificate(m.justification, c.instance, c.n, signed) then
         var value, round := m.justification[0].value, m.justification[0].round;
         s' == s.(decided := true, phase := Decided, decisionValue := value, certificate := m.justification,
                  preparedValue := value, preparedRound := round, acceptedValue := value, acceptedRound := round)
       else s' == s
  }

  function CatchUpReply(c: Config, s: NodeState): seq<Message> {
    if s.certificate == [] then []
    else [Message(DecisionCertificate, s.id, c.instance, s.preparedRound, s.decisionValue,
                  NO_PREPARED_ROUND, NO_PREPARED_VALUE, s.certificate)]
  }

  /** One call of HandleMessage on a correct node. */
  ghost predicate Handles(c: Config, signed: set<Payload>, s: NodeState, m: Message, s': NodeState, out: seq<Message>) {
    if !IsValidMessage(m, c.n, signed) || m.instance != c.instance then s' == s && out == []
    else if s.decided then s' == s && out == if m.kind == RoundChange then CatchUpReply(c, s) else []
    else match m.kind
      case PrePrepare => OnPrePrepare(c, signed, s, m, s', out)
      case Prepare => OnPrepare(c, s, m, s', out)
      case Commit => OnCommit(c, s, m, s', out)
      case RoundChange => OnRoundChange(c, signed, s, m, s', out)
      case DecisionCertificate => OnDecisionCertificate(c, signed, s, m, s', out)
      case Unknown => s' == s && out == []
  }

  // ---------- loops over maps and lists ----------

  /** Copies a map into a list, in whatever order the walk takes. */
  method ToList(book: map<int, Message>) returns (list: seq<Message>)
    requires FiledBySender(book)
    ensures IsListing(list, book)
  {
    list := [];
    var rest := book.Keys;
    while rest != {}
      invariant rest <= book.Keys
      invariant |list| + |rest| == |book|
      invariant forall k :: k in book && k !in rest ==> book[k] in list
      invariant forall x :: x in list ==> x.from in book && book[x.from] == x
      decreases rest
    {
      NonEmpty(rest);
      var k :| k in rest;
      list := list + [book[k]];
      rest := rest - {k};
    }
  }

  lemma {:induction false} SendersBounded(list: seq<Message>)
    ensures |set x | x in list :: x.from| <= |list|
  {
    if list != [] {
      var front, last := list[..|list| - 1], list[|list| - 1];
      SendersBounded(front);
      assert (set x | x in list :: x.from) == (set x | x in front :: x.from) + {last.from};
    }
  }

  method ValidateCommitCertificate(list: seq<Message>, instance: int, n: nat, signed: set<Payload>)
    returns (value: string, round: int, ok: bool)
    ensures ok <==> IsCommitCertificate(list, instance, n, signed)
    ensures ok ==> value == list[0].value && round == list[0].round
  {
    value, round, ok := "", 0, false;
    SendersBounded(list);
    if |list| < QuorumSize(n) {
      return;
    }
    var v, r := "", 0;
    var seen: set<int> := {};
    for i := 0 to |list|
      invariant i == 0 ==> v == ""
      invariant i > 0 ==> v == list[0].value && r == list[0].round && v != ""
      invariant forall x :: x in list[..i] ==> IsCommitFor(x, instance, list[0].round, list[0].value, n, signed)
      invariant seen == set x | x in list[..i] :: x.from
    {
      assert list[..i + 1] == list[..i] + [list[i]];
      var m := list[i];
      assert m in list;
      if !IsValidMessage(m, n, signed) || m.kind != Commit || m.instance != instance {
        return;
      }
      if v == "" {
        v, r := m.value, m.round;
      }
      if m.value != v || m.round != r {
        return;
      }
      seen := seen + {m.from};
    }
    assert list[..|list|] == list;
    if |seen| < QuorumSize(n) {
      return;
    }
    value, round, ok := v, r, true;
  }

  // ---------- the node ----------

  class Node {
    const c: Config
    const id: int
    const input: string
    var currentRound: int
    var preparedRound: int
    var preparedValue: string
    var phase: Phase
    var acceptedValue: string
    var acceptedRound: int
    var prepares: VoteBook
    var commits: VoteBook
    var roundChanges: map<int, map<int, Message>>
    var certificate: seq<Message>
    var decisionValue: string
    var roundChangeSent: set<int>
    var prePrepareSent: set<int>
    var commitSent: bool
    var decided: bool

    ghost function View(): NodeState
      reads this
    {
      NodeState(id, input, currentRound, preparedRound, preparedValue, phase, acceptedValue, acceptedRound,
                prepares, commits, roundChanges, certificate, decisionValue,
                roundChangeSent, prePrepareSent, commitSent, decided)
    }

    ghost predicate Valid()
      reads this
    {
      KeyedVotes(prepares) && KeyedVotes(commits) && KeyedRounds(roundChanges)
    }

    /** NewNode followed by the resets of Start. */
    constructor (c: Config, id: int, input: string)
      ensures this.c == c && View() == Started(id, input) && Valid()
    {
      this.c, this.id, this.input := c, id, input;
      currentRound, preparedRound, preparedValue := 1, NO_PREPARED_ROUND, NO_PREPARED_VALUE;
      phase, acceptedValue, acceptedRound := New, "", -1;
      prepares, commits, roundChanges := map[], map[], map[];
      certificate, decisionValue := [], "";
      roundChangeSent, prePrepareSent, commitSent, decided := {}, {}, false, false;
    }

    method Propose(round: int, signed: set<Payload>) returns (out: seq<Message>)
      requires Valid()
      modifies this`prePrepareSent
      ensures Valid() && Proposes(c, signed, old(View()), round, View(), out)
    {
      out := [];
      if Leader(c.instance, round, c.n) != id || currentRound != round || round in prePrepareSent {
        return;
      }
      var value, list := input, [];
      if round != 1 {
        var qrc := if round in roundChanges then roundChanges[round] else map[];
        assert qrc == RoundChangesFor(View(), round);
        if |qrc| < QuorumSize(c.n) {
          return;
        }
        var justified := JustifyRoundChange(qrc, c.instance, round, c.n, signed);
        if !justified {
          return;
        }
        var hp := HighestPrepared(qrc);
        if hp.Found? {
          value := hp.value;
        }
        list := ToList(qrc);
      }
      out := [Message(PrePrepare, id, c.instance, round, value, NO_PREPARED_ROUND, NO_PREPARED_VALUE, list)];
      prePrepareSent := prePrepareSent + {round};
    }

    method EnterRound(round: int)
      requires Valid()
      modifies this`currentRound, this`phase, this`acceptedValue, this`acceptedRound, this`commits, this`commitSent
      ensures Valid() && View() == Entered(old(View()), round)
    {
      if round < currentRound {
        return;
      }
      currentRound, phase, acceptedValue, acceptedRound := round, New, "", -1;
      commits, commitSent := map[], false;
    }

    method BroadcastRoundChange(round: int) returns (out: seq<Message>)
      requires Valid()
      modifies this`roundChangeSent
      ensures Valid() && View() == Announced(old(View()), round) && Announces(c, old(View()), round, out)
    {
      if round in roundChangeSent {
        assert roundChangeSent == roundChangeSent + {round};
        return [];
      }
      roundChangeSent := roundChangeSent + {round};
      var list := [];
      if preparedRound != NO_PREPARED_ROUND && preparedValue != NO_PREPARED_VALUE {
        list := ToList(VotesFor(prepares, preparedRound, preparedValue));
      }
      out := [Message(RoundChange, id, c.instance, round, "", preparedRound, preparedValue, list)];
    }

    method RequestRoundChange(round: int) returns (out: seq<Message>)
      requires Valid()
      modifies this
      ensures Valid() && RequestsRound(c, old(View()), round, View(), out)
    {
      if decided || round <= currentRound {
        return [];
      }
      EnterRound(round);
      out := BroadcastRoundChange(round);
    }

    method OnTimeout() returns (out: seq<Message>)
      requires Valid()
      modifies this
      ensures Valid() && TimesOut(c, old(View()), View(), out)
    {
      if decided {
        return [];
      }
      var nextRound := currentRound + 1;
      EnterRound(nextRound);
      out := BroadcastRoundChange(nextRound);
    }

    method HandlePrePrepare(m: Message, signed: set<Payload>) returns (out: seq<Message>)
      requires Valid()
      modifies this`acceptedValue, this`acceptedRound, this`phase
      ensures Valid() && OnPrePrepare(c, signed, old(View()), m, View(), out)
    {
      out := [];
      if m.instance != c.instance || m.round != currentRound || m.from != Leader(m.instance, m.round, c.n) {
        return;
      }
      var justified := JustifyPrePrepare(m, c.n, signed);
      if !justified || phase != New {
        return;
      }
      acceptedValue, acceptedRound, phase := m.value, m.round, PrePrepared;
      out := [Vote(Prepare, id, m.instance, m.round, m.value)];
    }

    method RecordPrepare(m: Message)
      requires Valid()
      modifies this`prepares
      ensures Valid() && View() == WithPrepare(old(View()), m)
    {
      RecordKeyed(prepares, m);
      prepares := Record(prepares, m);
    }

    method BecomePrepared(round: int, value: string)
      modifies this`preparedRound, this`preparedValue, this`phase, this`commitSent
      ensures View() == WithPrepared(old(View()), round, value)
    {
      preparedRound, preparedValue := round, value;
      phase, commitSent := IsPrepared, true;
    }

    method HandlePrepare(m: Message) returns (out: seq<Message>)
      requires Valid()
      modifies this`prepares, this`preparedRound, this`preparedValue, this`phase, this`commitSent
      ensures Valid() && OnPrepare(c, old(View()), m, View(), out)
    {
      out := [];
      if m.instance != c.instance || m.round != currentRound || acceptedValue != m.value || acceptedRound != m.round {
        return;
      }
      RecordPrepare(m);
      if |VotesFor(prepares, m.round, m.value)| >= QuorumSize(c.n) && phase == PrePrepared && !commitSent {
        BecomePrepared(m.round, m.value);
        out := [Vote(Commit, id, m.instance, m.round, m.value)];
      }
    }

    method RecordCommit(m: Message)
      requires Valid()
      modifies this`commits
      ensures Valid() && View() == WithCommit(old(View()), m)
      ensures FiledBySender(VotesFor(commits, m.round, m.value))
    {
      RecordKeyed(commits, m);
      commits := Record(commits, m);
    }

    method Decide(value: string, proof: seq<Message>)
      modifies this`phase, this`decided, this`decisionValue, this`certificate
      ensures View() == WithDecision(old(View()), value, proof)
    {
      phase, decided, decisionValue, certificate := Decided, true, value, proof;
    }

    method HandleCommit(m: Message) returns (out: seq<Message>)
      requires Valid()
      modifies this`commits, this`phase, this`decided, this`decisionValue, this`certificate
      ensures Valid() && OnCommit(c, old(View()), m, View(), out)
    {
      out := [];
      if m.instance != c.instance || m.round != currentRound || acceptedValue != m.value || acceptedRound != m.round {
        return;
      }
      RecordCommit(m);
      var votes := VotesFor(commits, m.round, m.value);
      if |votes| >= QuorumSize(c.n) && !decided {
        var qcommit := ToList(votes);
        Decide(m.value, qcommit);
      }
    }

    method RecordRoundChange(m: Message)
      requires Valid()
      modifies this`roundChanges
      ensures Valid() && View() == WithRoundChange(old(View()), m)
    {
      var votes := (if m.round in roundChanges then roundChanges[m.round] else map[])[m.from := m];
      roundChanges := roundChanges[m.round := votes];
    }

    method CatchUp(round: int) returns (out: seq<Message>)
      requires Valid() && round in roundChanges
      modifies this
      ensures Valid() && round in roundChanges && CatchesUp(c, old(View()), round, View(), out)
    {
      out := [];
      if round > currentRound && |roundChanges[round]| >= RoundChangeSetSize(c.n) {
        EnterRound(round);
        out := BroadcastRoundChange(round);
      }
    }

    method HandleRoundChange(m: Message, signed: set<Payload>) returns (out: seq<Message>)
      requires Valid()
      modifies this
      ensures Valid() && OnRoundChange(c, signed, old(View()), m, View(), out)
    {
      if m.instance != c.instance || m.round < currentRound
         || (m.preparedRound != NO_PREPARED_ROUND && m.preparedRound >= m.round) {
        return [];
      }
      RecordRoundChange(m);
      var first := CatchUp(m.round);
      ghost var mid := View();
      var second := FinishRoundChange(m.round, signed);
      out := first + second;
      assert out[..|first|] == first && out[|first|..] == second;
    }

    method FinishRoundChange(round: int, signed: set<Payload>) returns (out: seq<Message>)
      requires Valid() && round in roundChanges
      modifies this
      ensures Valid() && OnRoundChangeQuorum(c, signed, old(View()), round, View(), out)
    {
      out := [];
      var qrc := roundChanges[round];
      if |qrc| < QuorumSize(c.n) {
        return;
      }
      var justified := JustifyRoundChange(qrc, c.instance, round, c.n, signed);
      if !justified {
        return;
      }
      if round > currentRound {
        EnterRound(round);
      }
      if id == Leader(c.instance, round, c.n) {
        out := Propose(round, signed);
      }
    }

    method HandleDecisionCertificate(m: Message, signed: set<Payload>) returns (out: seq<Message>)
      requires Valid()
      modifies this`decided, this`phase, this`decisionValue, this`certificate, this`preparedValue, this`preparedRound,
               this`acceptedValue, this`acceptedRound
      ensures Valid() && OnDecisionCertificate(c, signed, old(View()), m, View(), out)
    {
      out := [];
      if m.instance != c.instance || decided {
        return;
      }
      var value, round, ok := ValidateCommitCertificate(m.justification, c.instance, c.n, signed);
      if !ok {
        return;
      }
      decided, phase, decisionValue, certificate := true, Decided, value, m.justification;
      preparedValue, preparedRound, acceptedValue, acceptedRound := value, round, value, round;
    }

    method HandleMessage(m: Message, signed: set<Payload>) returns (out: seq<Message>)
      requires Valid()
      modifies this
      ensures Valid() && Handles(c, signed, old(View()), m, View(), out)
    {
      out := [];
      if !IsValidMessage(m, c.n, signed) || m.instance != c.instance {
        return;
      }
      if decided {
        if m.kind == RoundChange && certificate != [] {
          out := [Message(DecisionCertificate, id, c.instance, preparedRound, decisionValue,
                          NO_PREPARED_ROUND, NO_PREPARED_VALUE, certificate)];
        }
        return;
      }
      match m.kind {
        case PrePrepare => out := HandlePrePrepare(m, signed);
        case Prepare => out := HandlePrepare(m);
        case Commit => out := HandleCommit(m);
        case RoundChange => out := HandleRoundChange(m, signed);
        case DecisionCertificate => out := HandleDecisionCertificate(m, signed);
        case Unknown =>
      }
    }
  }
}
