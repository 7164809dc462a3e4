/** Every step of an IBFT run keeps the invariant of IbftSafety, and what follows for runs. */
module IbftRuns {
  import opened IbftMessages
  import opened IbftJustification
  import opened IbftNode
  import opened IbftSafety
  import opened Quorums

  lemma HeadsOfUnion(signed: set<Payload>, out: seq<Message>)
    ensures Heads(signed + Payloads(out)) == Heads(signed) + set m | m in out :: m.Head()
  {
    var heads := set m | m in out :: m.Head();
    forall h | h in Heads(signed + Payloads(out)) ensures h in Heads(signed) + heads {
      var pl :| pl in signed + Payloads(out) && pl.head == h;
    }
    forall h | h in Heads(signed) + heads ensures h in Heads(signed + Payloads(out)) {
      if h in heads {
        var m :| m in out && m.Head() == h;
        assert m.Signable() in Payloads(out);
      }
    }
  }

  /** `h` is a header that node `p` may sign in state `s`. */
  ghost predicate MaySign(w: World, signed: set<Payload>, p: int, s: NodeState, h: Header) {
    h.from == p ==>
      match h.kind
      case Prepare =>
        !s.decided && h.round == s.currentRound && s.phase != New && s.acceptedValue == h.value
      case Commit =>
        h.round == s.currentRound && s.preparedRound >= h.round && Quorum(w, signed, Prepare, h.round, h.value)
      case RoundChange =>
        !s.decided && h.round == s.currentRound && h.preparedRound == s.preparedRound
      case _ => true
  }

  /** A node stays in order when it signs what it may, and when others sign anything. */
  lemma SigningKeeps(w: World, signed: set<Payload>, more: set<Payload>, p: int, s: NodeState, h: Header)
    requires NodeOk(w, signed, p, s) && signed <= more && MaySign(w, signed, p, s, h)
    requires forall x :: x in Heads(more) && x !in Heads(signed) && x.from == p ==> x == h
    ensures NodeOk(w, more, p, s)
  {
    assert Heads(signed) <= Heads(more);
    forall x | x in Heads(more) && x.from == p && x.kind == Commit ensures Quorum(w, more, Prepare, x.round, x.value) {
      QuorumGrows(w, signed, more, Prepare, x.round, x.value);
    }
    if s.decided {
      var round :| Quorum(w, signed, Commit, round, s.decisionValue);
      QuorumGrows(w, signed, more, Commit, round, s.decisionValue);
    }
  }

  /** The same for a node that sends the single message `m`. */
  lemma SendingKeeps(w: World, signed: set<Payload>, p: int, s: NodeState, m: Message)
    requires NodeOk(w, signed, p, s) && MaySign(w, signed, p, s, m.Head())
    ensures NodeOk(w, signed + Payloads([m]), p, s)
  {
    HeadsOfUnion(signed, [m]);
    SigningKeeps(w, signed, signed + Payloads([m]), p, s, m.Head());
  }

  lemma NothingSent(signed: set<Payload>)
    ensures signed + Payloads([]) == signed
  {
  }

  lemma SentOkGrows(w: World, signed: set<Payload>, more: set<Payload>, m: Message)
    requires SentOk(w, signed, m) && signed <= more
    ensures SentOk(w, more, m)
  {
    if m.kind == RoundChange && m.ClaimsPrepared() {
      SubsetSize(SendersIn(m.justification, w.c.instance, m.preparedRound, m.preparedValue, w.c.n, signed),
                 SendersIn(m.justification, w.c.instance, m.preparedRound, m.preparedValue, w.c.n, more));
    }
  }

  /** A recorded quorum of PREPAREs or COMMITs is a quorum of signers. */
  lemma BookIsQuorum(w: World, signed: set<Payload>, kind: Kind, round: int, value: string, book: map<int, Message>)
    requires |book| >= QuorumSize(w.c.n)
    requires forall k :: k in book ==>
               var m := book[k];
               m.from == k && IsValidMessage(m, w.c.n, signed) && m.kind == kind && m.instance == w.c.instance
               && m.round == round && m.value == value
    ensures Quorum(w, signed, kind, round, value)
  {
    forall k | k in book.Keys ensures k in Signers(w, signed, kind, round, value) {
      assert book[k].Signable().head in Heads(signed);
    }
    SubsetSize(book.Keys, Signers(w, signed, kind, round, value));
    assert |book.Keys| == |book|;
  }

  /** What passes both checks under one walk is justified by signed ROUND-CHANGEs. */
  lemma AcceptedIsJustified(w: World, signed: set<Payload>, m: Message)
    requires OneWalkAccepts(m, w.c.n, signed) && m.instance == w.c.instance
    ensures Justified(w, signed, m.round, m.value)
  {
    if m.round != 1 {
      var qrc := QrcOf(m.justification);
      var hp :| IsHighestPrepared(qrc, hp) &&
                (hp.Found? ==> HasPrepareQuorum(qrc, m.instance, hp.round, hp.value, w.c.n, signed) && m.value == hp.value);
      WalkJustifies(w, signed, qrc, m.round, m.value, hp);
    }
  }

  lemma HeadersOfQrc(w: World, signed: set<Payload>, qrc: map<int, Message>, round: int) returns (rc: map<int, Header>)
    requires IsQrc(qrc, w.c.instance, round, w.c.n, signed) && FiledBySender(qrc)
    ensures rc == map k | k in qrc :: qrc[k].Head()
    ensures |rc| == |qrc| && forall k :: k in rc ==> 0 <= k < w.c.n && rc[k] in Heads(signed)
  {
    rc := map k | k in qrc :: qrc[k].Head();
    assert rc.Keys == qrc.Keys && |rc.Keys| == |rc| && |qrc.Keys| == |qrc|;
    forall k | k in rc ensures rc[k] in Heads(signed) && 0 <= k < w.c.n {
      assert RoundChangeFor(qrc[k], w.c.instance, round, w.c.n, signed);
      assert qrc[k].Signable().head in Heads(signed);
    }
  }

  lemma WalkJustifies(w: World, signed: set<Payload>, qrc: map<int, Message>, round: int, value: string, hp: Highest)
    requires IsQrc(qrc, w.c.instance, round, w.c.n, signed) && FiledBySender(qrc) && IsHighestPrepared(qrc, hp)
    requires hp.Found? ==> HasPrepareQuorum(qrc, w.c.instance, hp.round, hp.value, w.c.n, signed) && value == hp.value
    ensures Justified(w, signed, round, value)
  {
    var rc := HeadersOfQrc(w, signed, qrc, round);
    if hp.Found? {
      SupportersSigned(w, signed, qrc, hp.round, hp.value);
      assert hp.round < round && forall k :: k in rc ==> rc[k].preparedRound <= hp.round || rc[k].preparedRound == NO_PREPARED_ROUND;
    }
    assert JustifiedBy(w, signed, round, value, rc);
  }

  lemma SupportersSigned(w: World, signed: set<Payload>, qrc: map<int, Message>, round: int, value: string)
    requires HasPrepareQuorum(qrc, w.c.instance, round, value, w.c.n, signed)
    ensures Quorum(w, signed, Prepare, round, value)
  {
    var supporters := Supporters(qrc, w.c.instance, round, value, w.c.n, signed);
    forall s | s in supporters ensures s in Signers(w, signed, Prepare, round, value) {
      var k :| k in qrc && s in SendersIn(qrc[k].justification, w.c.instance, round, value, w.c.n, signed);
      var p :| p in qrc[k].justification && Supports(p, w.c.instance, round, value, w.c.n, signed) && p.from == s;
      assert p.Signable().head in Heads(signed);
    }
    SubsetSize(supporters, Signers(w, signed, Prepare, round, value));
  }

  /** After a step that sends `out`, the node is in order and all it sent is its own and proper. */
  ghost predicate Kept(w: World, signed: set<Payload>, p: int, s': NodeState, out: seq<Message>) {
    && NodeOk(w, signed + Payloads(out), p, s')
    && forall m :: m in out ==> m.from == p && SentOk(w, signed + Payloads(out), m)
  }

  // ---------- one lemma per handler ----------

  lemma AcceptingKeeps(w: World, signed: set<Payload>, p: int, s: NodeState, s': NodeState)
    requires NodeOk(w, signed, p, s) && !s.decided && s.phase == New
    requires s' == s.(acceptedValue := s'.acceptedValue, acceptedRound := s'.acceptedRound, phase := PrePrepared)
    ensures NodeOk(w, signed, p, s')
  {
    assert PrepareBookOk(w, signed, s'.prepares) && CommitBookOk(w, signed, s'.commits);
  }

  lemma SendingVoteKeeps(w: World, signed: set<Payload>, p: int, s: NodeState, m: Message)
    requires NodeOk(w, signed, p, s) && MaySign(w, signed, p, s, m.Head()) && m.from == p && m.kind != RoundChange
    ensures Kept(w, signed, p, s, [m])
  {
    SendingKeeps(w, signed, p, s, m);
  }

  lemma AcceptedKeeps(w: World, signed: set<Payload>, p: int, s: NodeState, s': NodeState, value: string)
    requires NodeOk(w, signed, p, s) && !s.decided && s.phase == New
    requires s' == s.(acceptedValue := value, acceptedRound := s.currentRound, phase := PrePrepared)
    ensures Kept(w, signed, p, s', [Vote(Prepare, p, w.c.instance, s.currentRound, value)])
  {
    AcceptingKeeps(w, signed, p, s, s');
    SendingVoteKeeps(w, signed, p, s', Vote(Prepare, p, w.c.instance, s.currentRound, value));
  }

  lemma PrePrepareKeeps(w: World, signed: set<Payload>, p: int, s: NodeState, m: Message, s': NodeState, out: seq<Message>)
    requires NodeOk(w, signed, p, s) && !s.decided
    requires OnPrePrepare(w.c, signed, s, m, s', out)
    ensures Kept(w, signed, p, s', out)
  {
    if out == [] {
      NothingSent(signed);
    } else {
      AcceptedKeeps(w, signed, p, s, s', m.value);
    }
  }

  lemma RecordedPrepare(w: World, signed: set<Payload>, book: VoteBook, m: Message)
    requires PrepareBookOk(w, signed, book) && Supports(m, w.c.instance, m.round, m.value, w.c.n, signed)
    ensures PrepareBookOk(w, signed, Record(book, m))
  {
    forall round, value, k | k in VotesFor(Record(book, m), round, value)
      ensures var x := VotesFor(Record(book, m), round, value)[k];
              x.from == k && Supports(x, w.c.instance, round, value, w.c.n, signed)
    {
      assert ((round, value) == (m.round, m.value) && k == m.from) || k in VotesFor(book, round, value);
    }
  }

  lemma RecordedCommit(w: World, signed: set<Payload>, book: VoteBook, m: Message)
    requires CommitBookOk(w, signed, book) && IsCommitFor(m, w.c.instance, m.round, m.value, w.c.n, signed)
    ensures CommitBookOk(w, signed, Record(book, m))
  {
    forall round, value, k | k in VotesFor(Record(book, m), round, value)
      ensures var x := VotesFor(Record(book, m), round, value)[k];
              x.from == k && IsCommitFor(x, w.c.instance, round, value, w.c.n, signed)
    {
      assert ((round, value) == (m.round, m.value) && k == m.from) || k in VotesFor(book, round, value);
    }
  }

  /** Recording more votes never shrinks what was recorded before. */
  lemma RecordGrows(book: VoteBook, m: Message, round: int, value: string)
    ensures |VotesFor(book, round, value)| <= |VotesFor(Record(book, m), round, value)|
  {
    var before, after := VotesFor(book, round, value), VotesFor(Record(book, m), round, value);
    SubsetSize(before.Keys, after.Keys);
    assert |before.Keys| == |before| && |after.Keys| == |after|;
  }

  lemma PrepareRecordedKeeps(w: World, signed: set<Payload>, p: int, s: NodeState, m: Message)
    requires NodeOk(w, signed, p, s) && Supports(m, w.c.instance, m.round, m.value, w.c.n, signed)
    ensures NodeOk(w, signed, p, WithPrepare(s, m))
  {
    RecordedPrepare(w, signed, s.prepares, m);
    RecordGrows(s.prepares, m, s.preparedRound, s.preparedValue);
  }

  lemma PreparedKeeps(w: World, signed: set<Payload>, p: int, s: NodeState, value: string)
    requires NodeOk(w, signed, p, s) && !s.decided && s.phase == PrePrepared && value == s.acceptedValue && Beta(value)
    requires |VotesFor(s.prepares, s.currentRound, value)| >= QuorumSize(w.c.n)
    ensures NodeOk(w, signed, p, WithPrepared(s, s.currentRound, value))
  {
    var s' := WithPrepared(s, s.currentRound, value);
    assert s'.prepares == s.prepares && s'.commits == s.commits;
  }

  lemma PrepareKeeps(w: World, signed: set<Payload>, p: int, s: NodeState, m: Message, s': NodeState, out: seq<Message>)
    requires NodeOk(w, signed, p, s) && !s.decided && IsValidMessage(m, w.c.n, signed) && m.kind == Prepare
    requires OnPrepare(w.c, s, m, s', out)
    ensures Kept(w, signed, p, s', out)
  {
    NothingSent(signed);
    if Relevant(w.c, s, m) {
      PrepareRecordedKeeps(w, signed, p, s, m);
      if out != [] {
        PreparedKeeps(w, signed, p, WithPrepare(s, m), m.value);
        BookIsQuorum(w, signed, Prepare, m.round, m.value, VotesFor(s'.prepares, m.round, m.value));
        SendingVoteKeeps(w, signed, p, s', Vote(Commit, p, w.c.instance, m.round, m.value));
      }
    }
  }

  lemma CommitRecordedKeeps(w: World, signed: set<Payload>, p: int, s: NodeState, m: Message)
    requires NodeOk(w, signed, p, s) && IsCommitFor(m, w.c.instance, m.round, m.value, w.c.n, signed)
    ensures NodeOk(w, signed, p, WithCommit(s, m))
  {
    RecordedCommit(w, signed, s.commits, m);
  }

  lemma DecidingKeeps(w: World, signed: set<Payload>, p: int, s: NodeState, round: int, value: string, proof: seq<Message>)
    requires NodeOk(w, signed, p, s) && Quorum(w, signed, Commit, round, value)
    ensures NodeOk(w, signed, p, WithDecision(s, value, proof))
  {
    var s' := WithDecision(s, value, proof);
    assert s'.prepares == s.prepares && s'.commits == s.commits;
  }

  lemma CommitKeeps(w: World, signed: set<Payload>, p: int, s: NodeState, m: Message, s': NodeState, out: seq<Message>)
    requires NodeOk(w, signed, p, s) && !s.decided && IsValidMessage(m, w.c.n, signed) && m.kind == Commit
    requires OnCommit(w.c, s, m, s', out)
    ensures Kept(w, signed, p, s', out)
  {
    NothingSent(signed);
    if Relevant(w.c, s, m) {
      CommitRecordedKeeps(w, signed, p, s, m);
      if s'.decided {
        BookIsQuorum(w, signed, Commit, m.round, m.value, VotesFor(s'.commits, m.round, m.value));
        DecidingKeeps(w, signed, p, WithCommit(s, m), m.round, m.value, s'.certificate);
      }
    }
  }

  lemma CertificateKeeps(w: World, signed: set<Payload>, p: int, s: NodeState, m: Message, s': NodeState, out: seq<Message>)
    requires NodeOk(w, signed, p, s) && !s.decided
    requires OnDecisionCertificate(w.c, signed, s, m, s', out)
    ensures Kept(w, signed, p, s', out)
  {
    NothingSent(signed);
    if s'.decided {
      var list := m.justification;
      var senders := set x | x in list :: x.from;
      forall k | k in senders ensures k in Signers(w, signed, Commit, list[0].round, list[0].value) {
        var x :| x in list && x.from == k;
        assert x.Signable().head in Heads(signed);
      }
      SubsetSize(senders, Signers(w, signed, Commit, list[0].round, list[0].value));
      assert Quorum(w, signed, Commit, list[0].round, s'.decisionValue);
    }
  }

  lemma EnteringKeeps(w: World, signed: set<Payload>, p: int, s: NodeState, round: int)
    requires NodeOk(w, signed, p, s) && !s.decided && round > s.currentRound
    ensures NodeOk(w, signed, p, Announced(Entered(s, round), round))
  {
    var s' := Announced(Entered(s, round), round);
    assert s'.prepares == s.prepares && s'.commits == map[];
    assert PreparesOk(w, signed, p, s');
  }

  /** Entering a higher round and announcing it. */
  lemma AdvanceKeeps(w: World, signed: set<Payload>, p: int, s: NodeState, round: int, s': NodeState, out: seq<Message>)
    requires NodeOk(w, signed, p, s) && !s.decided && round > s.currentRound
    requires Advances(w.c, s, round, s', out) && w.WellFormed() && w.Correct(p)
    ensures Kept(w, signed, p, s', out) && !s'.decided && s'.currentRound == round
  {
    NothingSent(signed);
    EnteringKeeps(w, signed, p, s, round);
    if out != [] {
      assert out == [out[0]];
      SendingKeeps(w, signed, p, s', out[0]);
      AnnouncementOk(w, signed, p, s, Entered(s, round), round, out[0]);
    }
  }

  lemma AnnouncementOk(w: World, signed: set<Payload>, p: int, s: NodeState, s1: NodeState, round: int, m: Message)
    requires NodeOk(w, signed, p, s) && !s.decided && round > s.currentRound && w.WellFormed() && w.Correct(p)
    requires s1 == Entered(s, round) && IsRoundChangeOf(w.c, s1, round, m)
    ensures SentOk(w, signed + Payloads([m]), m)
  {
    var more := signed + Payloads([m]);
    assert m.Signable() in Payloads([m]);
    if m.ClaimsPrepared() {
      var book := VotesFor(s.prepares, s.preparedRound, s.preparedValue);
      var senders := SendersIn(m.justification, w.c.instance, m.preparedRound, m.preparedValue, w.c.n, more);
      forall k | k in book.Keys ensures k in senders {
        assert book[k] in m.justification && Supports(book[k], w.c.instance, s.preparedRound, s.preparedValue, w.c.n, signed);
      }
      SubsetSize(book.Keys, senders);
      assert |book.Keys| == |book|;
    }
  }

  lemma ProposeKeeps(w: World, signed: set<Payload>, pool: set<Payload>, p: int, s: NodeState, round: int, s': NodeState, out: seq<Message>)
    requires NodeOk(w, signed, p, s) && Proposes(w.c, pool, s, round, s', out)
    ensures Kept(w, signed, p, s', out)
  {
    if out == [] {
      NothingSent(signed);
    } else {
      assert out == [out[0]];
      assert s'.prepares == s.prepares && s'.commits == s.commits;
      SendingKeeps(w, signed, p, s', out[0]);
    }
  }

  lemma PayloadsSplit(out: seq<Message>, k: nat)
    requires k <= |out|
    ensures Payloads(out) == Payloads(out[..k]) + Payloads(out[k..])
    ensures forall m :: m in out <==> m in out[..k] || m in out[k..]
  {
    assert out == out[..k] + out[k..];
  }

  lemma KeptTwice(w: World, signed: set<Payload>, p: int, mid: NodeState, s': NodeState, out: seq<Message>, k: nat)
    requires k <= |out| && Kept(w, signed, p, mid, out[..k])
    requires Kept(w, signed + Payloads(out[..k]), p, s', out[k..])
    ensures Kept(w, signed, p, s', out)
  {
    PayloadsSplit(out, k);
    var caught := signed + Payloads(out[..k]);
    assert caught + Payloads(out[k..]) == signed + Payloads(out);
    forall x | x in out ensures x.from == p && SentOk(w, signed + Payloads(out), x) {
      if x in out[..k] {
        SentOkGrows(w, caught, signed + Payloads(out), x);
      }
    }
  }

  lemma RoundChangeKeeps(w: World, signed: set<Payload>, p: int, s: NodeState, m: Message, s': NodeState, out: seq<Message>)
    requires NodeOk(w, signed, p, s) && !s.decided
    requires OnRoundChange(w.c, signed, s, m, s', out) && w.WellFormed() && w.Correct(p)
    ensures Kept(w, signed, p, s', out)
  {
    NothingSent(signed);
    if !(m.instance != w.c.instance || m.round < s.currentRound
         || (m.preparedRound != NO_PREPARED_ROUND && m.preparedRound >= m.round)) {
      var s1 := WithRoundChange(s, m);
      var mid, k :| 0 <= k <= |out| && CatchesUp(w.c, s1, m.round, mid, out[..k])
                    && OnRoundChangeQuorum(w.c, signed, mid, m.round, s', out[k..]);
      RecordingRoundChangeKeeps(w, signed, p, s, m);
      CatchUpKeeps(w, signed, p, s1, m.round, mid, out[..k]);
      RoundChangeQuorumKeeps(w, signed + Payloads(out[..k]), signed, p, mid, m.round, s', out[k..]);
      KeptTwice(w, signed, p, mid, s', out, k);
    }
  }

  lemma RecordingRoundChangeKeeps(w: World, signed: set<Payload>, p: int, s: NodeState, m: Message)
    requires NodeOk(w, signed, p, s)
    ensures NodeOk(w, signed, p, WithRoundChange(s, m))
  {
    var s1 := WithRoundChange(s, m);
    assert s1.prepares == s.prepares && s1.commits == s.commits;
  }

  lemma CatchUpKeeps(w: World, signed: set<Payload>, p: int, s: NodeState, round: int, s': NodeState, out: seq<Message>)
    requires NodeOk(w, signed, p, s) && !s.decided && w.WellFormed() && w.Correct(p)
    requires CatchesUp(w.c, s, round, s', out)
    ensures Kept(w, signed, p, s', out)
    ensures |RoundChangesFor(s', round)| >= QuorumSize(w.c.n) ==> round <= s'.currentRound
  {
    NothingSent(signed);
    QuorumArithmetic(w.c.n);
    if round > s.currentRound && |RoundChangesFor(s, round)| >= RoundChangeSetSize(w.c.n) {
      AdvanceKeeps(w, signed, p, s, round, s', out);
    }
  }

  lemma RoundChangeQuorumKeeps(w: World, signed: set<Payload>, pool: set<Payload>, p: int, s: NodeState, round: int,
                               s': NodeState, out: seq<Message>)
    requires NodeOk(w, signed, p, s) && OnRoundChangeQuorum(w.c, pool, s, round, s', out)
    requires |RoundChangesFor(s, round)| >= QuorumSize(w.c.n) ==> round <= s.currentRound
    ensures Kept(w, signed, p, s', out)
  {
    NothingSent(signed);
    if out != [] {
      ProposeKeeps(w, signed, pool, p, s, round, s', out);
    }
  }

  // ---------- steps and runs ----------

  lemma DeliveryKeeps(w: World, signed: set<Payload>, p: int, s: NodeState, m: Message, s': NodeState, out: seq<Message>)
    requires w.WellFormed() && w.Correct(p) && NodeOk(w, signed, p, s) && Handles(w.c, signed, s, m, s', out)
    ensures Kept(w, signed, p, s', out)
  {
    NothingSent(signed);
    if IsValidMessage(m, w.c.n, signed) && m.instance == w.c.instance {
      if s.decided {
        if out != [] {
          assert out == [out[0]];
          SendingKeeps(w, signed, p, s, out[0]);
        }
      } else {
        match m.kind {
          case PrePrepare => PrePrepareKeeps(w, signed, p, s, m, s', out);
          case Prepare => PrepareKeeps(w, signed, p, s, m, s', out);
          case Commit => CommitKeeps(w, signed, p, s, m, s', out);
          case RoundChange => RoundChangeKeeps(w, signed, p, s, m, s', out);
          case DecisionCertificate => CertificateKeeps(w, signed, p, s, m, s', out);
          case Unknown =>
        }
      }
    }
  }

  lemma RequestKeeps(w: World, signed: set<Payload>, p: int, s: NodeState, round: int, s': NodeState, out: seq<Message>)
    requires NodeOk(w, signed, p, s) && RequestsRound(w.c, s, round, s', out) && w.WellFormed() && w.Correct(p)
    ensures Kept(w, signed, p, s', out)
  {
    NothingSent(signed);
    if !s.decided && round > s.currentRound {
      AdvanceKeeps(w, signed, p, s, round, s', out);
    }
  }

  lemma CorrectStepKeeps(w: World, g: Global, e: Event, s': NodeState)
    requires w.WellFormed() && Inv(w, g) && !e.Forge? && e.p in g.nodes
    requires NodeStep(w, g, e, g.nodes[e.p], s')
    ensures Kept(w, g.signed, e.p, s', e.out)
  {
    var s := g.nodes[e.p];
    assert NodeOk(w, g.signed, e.p, s);
    match e {
      case Deliver(p, m, out) => DeliveryKeeps(w, g.signed, p, s, m, s', out);
      case Timeout(p, out) => RequestKeeps(w, g.signed, p, s, s.currentRound + 1, s', out);
      case Request(p, round, out) => RequestKeeps(w, g.signed, p, s, round, s', out);
      case Kickoff(p, out) => ProposeKeeps(w, g.signed, g.signed, p, s, s.currentRound, s', out);
    }
  }

  lemma StepKeeps(w: World, g: Global, e: Event, g': Global)
    requires w.WellFormed() && Inv(w, g) && Step(w, g, e, g')
    ensures Inv(w, g')
  {
    assert g.signed <= g'.signed;
    if e.Forge? {
      forall p | p in g.nodes ensures NodeOk(w, g'.signed, p, g'.nodes[p]) {
        assert NodeOk(w, g.signed, p, g.nodes[p]);
        SigningKeeps(w, g.signed, g'.signed, p, g.nodes[p], e.payload.head);
      }
    } else {
      CorrectStepKeeps(w, g, e, g'.nodes[e.p]);
      HeadsOfUnion(g.signed, e.out);
      forall p | p in g.nodes && p != e.p ensures NodeOk(w, g'.signed, p, g'.nodes[p]) {
        assert NodeOk(w, g.signed, p, g.nodes[p]);
        SigningKeeps(w, g.signed, g'.signed, p, g.nodes[p], Vote(Unknown, e.p, 0, 0, "").Head());
      }
    }
    forall m | m in g'.sent ensures SentOk(w, g'.signed, m) {
      if m in g.sent {
        SentOkGrows(w, g.signed, g'.signed, m);
      }
    }
  }

  lemma InitOk(w: World, g: Global)
    requires Init(w, g)
    ensures Inv(w, g)
  {
    assert Heads(g.signed) == {};
    forall p | p in g.nodes ensures NodeOk(w, g.signed, p, g.nodes[p]) {
      StartedOk(w, g.signed, p, g.nodes[p]);
    }
  }

  lemma StartedOk(w: World, signed: set<Payload>, p: int, s: NodeState)
    requires s == Started(p, s.input) && Heads(signed) == {}
    ensures NodeOk(w, signed, p, s)
  {
  }

  lemma {:induction false} RunKeeps(w: World, events: seq<Event>, states: seq<Global>, i: nat)
    requires w.WellFormed() && Run(w, events, states) && i < |states|
    ensures Inv(w, states[i])
  {
    if i == 0 {
      InitOk(w, states[0]);
    } else {
      RunKeeps(w, events, states, i - 1);
      StepKeeps(w, states[i - 1], events[i - 1], states[i]);
    }
  }

  // ---------- calm runs ----------

  ghost predicate NoPrepares(out: seq<Message>) {
    forall x :: x in out ==> x.kind != Prepare
  }

  lemma CatchUpSends(c: Config, s: NodeState, round: int, s': NodeState, out: seq<Message>)
    requires CatchesUp(c, s, round, s', out)
    ensures NoPrepares(out)
  {
  }

  lemma QuorumSends(c: Config, signed: set<Payload>, s: NodeState, round: int, s': NodeState, out: seq<Message>)
    requires OnRoundChangeQuorum(c, signed, s, round, s', out)
    ensures NoPrepares(out)
  {
  }

  lemma RoundChangeSends(c: Config, signed: set<Payload>, s: NodeState, m: Message, s': NodeState, out: seq<Message>)
    requires OnRoundChange(c, signed, s, m, s', out)
    ensures NoPrepares(out)
  {
    if out != [] {
      var mid, k :| 0 <= k <= |out| && CatchesUp(c, WithRoundChange(s, m), m.round, mid, out[..k])
                    && OnRoundChangeQuorum(c, signed, mid, m.round, s', out[k..]);
      CatchUpSends(c, WithRoundChange(s, m), m.round, mid, out[..k]);
      QuorumSends(c, signed, mid, m.round, s', out[k..]);
      PayloadsSplit(out, k);
    }
  }

  /** A correct node sends a PREPARE only for a PRE-PREPARE that it accepts. */
  lemma PreparesComeFromProposals(w: World, g: Global, e: Event, s': NodeState)
    requires !e.Forge? && e.p in g.nodes && NodeStep(w, g, e, g.nodes[e.p], s')
    ensures e.Deliver? && e.m.kind == PrePrepare && e.m.instance == w.c.instance ==>
              forall x :: x in e.out && x.kind == Prepare ==> x.round == e.m.round && x.value == e.m.value
    ensures !(e.Deliver? && e.m.kind == PrePrepare && e.m.instance == w.c.instance) ==> NoPrepares(e.out)
  {
    if e.Deliver? && IsValidMessage(e.m, w.c.n, g.signed) && e.m.instance == w.c.instance && !g.nodes[e.p].decided
       && e.m.kind == RoundChange {
      RoundChangeSends(w.c, g.signed, g.nodes[e.p], e.m, s', e.out);
    }
  }

  lemma CalmStepKeeps(w: World, g: Global, e: Event, g': Global)
    requires w.WellFormed() && CalmInv(w, g) && Step(w, g, e, g') && Calm(w, g, e)
    ensures CalmInv(w, g')
  {
    StepKeeps(w, g, e, g');
    forall h | h in Heads(g'.signed) && w.Correct(h.from) && h.kind == Prepare ensures Justified(w, g'.signed, h.round, h.value) {
      if h !in Heads(g.signed) && !e.Forge? {
        HeadsOfUnion(g.signed, e.out);
        var x :| x in e.out && x.Head() == h;
        PreparesComeFromProposals(w, g, e, g'.nodes[e.p]);
        AcceptedIsJustified(w, g.signed, e.m);
      }
      JustifiedGrows(w, g.signed, g'.signed, h.round, h.value);
    }
  }

  lemma {:induction false} CalmRunKeeps(w: World, events: seq<Event>, states: seq<Global>, i: nat)
    requires w.WellFormed() && CalmRun(w, events, states) && i < |states|
    ensures CalmInv(w, states[i])
  {
    if i == 0 {
      InitOk(w, states[0]);
      assert Heads(states[0].signed) == {};
    } else {
      CalmRunKeeps(w, events, states, i - 1);
      CalmStepKeeps(w, states[i - 1], events[i - 1], states[i]);
    }
  }

  /** Agreement: in every run with at most (n-1)/3 faulty validators whose accepted PRE-PREPAREs pass
      under one walk, two correct nodes never decide different values, however they decide and whenever. */
  lemma Agreement(w: World, events: seq<Event>, states: seq<Global>, i: nat, j: nat, p: int, q: int)
    requires w.WellFormed() && CalmRun(w, events, states) && i <= j < |states|
    requires w.Correct(p) && w.Correct(q)
    requires p in states[i].nodes && states[i].nodes[p].decided
    requires q in states[j].nodes && states[j].nodes[q].decided
    ensures states[i].nodes[p].decisionValue == states[j].nodes[q].decisionValue
  {
    CalmRunKeeps(w, events, states, i);
    CalmRunKeeps(w, events, states, j);
    assert NodeOk(w, states[i].signed, p, states[i].nodes[p]);
    assert NodeOk(w, states[j].signed, q, states[j].nodes[q]);
    var r1 :| Quorum(w, states[i].signed, Commit, r1, states[i].nodes[p].decisionValue);
    var r2 :| Quorum(w, states[j].signed, Commit, r2, states[j].nodes[q].decisionValue);
    SignaturesStay(w, events, states, i, j);
    QuorumGrows(w, states[i].signed, states[j].signed, Commit, r1, states[i].nodes[p].decisionValue);
    CommitsAgree(w, states[j], r1, states[i].nodes[p].decisionValue, r2, states[j].nodes[q].decisionValue);
  }

  lemma {:induction false} SignaturesStay(w: World, events: seq<Event>, states: seq<Global>, i: nat, j: nat)
    requires Run(w, events, states) && i <= j < |states|
    ensures states[i].signed <= states[j].signed
    decreases j
  {
    if i < j {
      SignaturesStay(w, events, states, i, j - 1);
      assert Step(w, states[j - 1], events[j - 1], states[j]);
    }
  }

  /** Lock-in: once a quorum has signed COMMIT for `v` in `round`, every PRE-PREPARE of a later
      round that passes under one walk carries `v`. */
  lemma LockIn(w: World, events: seq<Event>, states: seq<Global>, i: nat, round: int, v: string, m: Message)
    requires w.WellFormed() && CalmRun(w, events, states) && i < |states|
    requires Quorum(w, states[i].signed, Commit, round, v)
    requires m.instance == w.c.instance && m.round > round && OneWalkAccepts(m, w.c.n, states[i].signed)
    ensures m.value == v
  {
    var g := states[i];
    CalmRunKeeps(w, events, states, i);
    CommitNeedsPrepare(w, g, round, v);
    CommittedRoundPositive(w, g, round, v);
    forall r, x | round <= r < m.round && Quorum(w, g.signed, Prepare, r, x) ensures x == v {
      CommittedValueStays(w, g, round, v, r, x);
    }
    AcceptedIsJustified(w, g.signed, m);
    JustifiedKeepsCommitted(w, g, round, v, m.round, m.value);
  }

  /** In every reachable state, a justified ROUND-CHANGE quorum is free of ties exactly when every
      value it lets through was prepared by a quorum in the highest claimed round. */
  lemma TieFreeExactlyWhenSupported(w: World, events: seq<Event>, states: seq<Global>, i: nat, qrc: map<int, Message>, round: int)
    requires w.WellFormed() && Run(w, events, states) && i < |states|
    requires MayJustifyRoundChange(qrc, w.c.instance, round, w.c.n, states[i].signed)
    ensures TieFree(qrc)
            <==> forall hp :: IsHighestPrepared(qrc, hp) && hp.Found?
                              ==> HasPrepareQuorum(qrc, w.c.instance, hp.round, hp.value, w.c.n, states[i].signed)
  {
    var signed := states[i].signed;
    RunKeeps(w, events, states, i);
    var some :| IsHighestPrepared(qrc, some) && (some.Found? ==> HasPrepareQuorum(qrc, w.c.instance, some.round, some.value, w.c.n, signed));
    if TieFree(qrc) {
      forall hp | IsHighestPrepared(qrc, hp) ensures hp == some {
        TieFreeIsUnique(qrc, hp, some);
      }
    } else {
      var a, b :| TopClaim(qrc, a) && TopClaim(qrc, b) && qrc[a].preparedValue != qrc[b].preparedValue;
      var ha, hb := Found(qrc[a].preparedRound, qrc[a].preparedValue), Found(qrc[b].preparedRound, qrc[b].preparedValue);
      assert IsHighestPrepared(qrc, ha) && IsHighestPrepared(qrc, hb);
      if HasPrepareQuorum(qrc, w.c.instance, ha.round, ha.value, w.c.n, signed)
         && HasPrepareQuorum(qrc, w.c.instance, hb.round, hb.value, w.c.n, signed) {
        SupportersSigned(w, signed, qrc, ha.round, ha.value);
        SupportersSigned(w, signed, qrc, hb.round, hb.value);
        PrepareQuorumUnique(w, states[i], ha.round, ha.value, hb.value);
      }
    }
  }

  // ---------- completeness of justifications ----------

  /** A quorum of ROUND-CHANGEs sent by correct nodes passes JustifyRoundChange under every order of
      the map. */
  lemma CorrectQuorumJustifies(w: World, events: seq<Event>, states: seq<Global>, i: nat, qrc: map<int, Message>, round: int)
    requires w.WellFormed() && Run(w, events, states) && i < |states|
    requires |qrc| >= QuorumSize(w.c.n)
    requires forall k :: k in qrc ==> qrc[k] in states[i].sent && qrc[k].kind == RoundChange && qrc[k].round == round
    ensures MustJustifyRoundChange(qrc, w.c.instance, round, w.c.n, states[i].signed)
    ensures TieFree(qrc)
  {
    var signed := states[i].signed;
    RunKeeps(w, events, states, i);
    forall k | k in qrc
      ensures RoundChangeFor(qrc[k], w.c.instance, round, w.c.n, signed)
      ensures qrc[k].ClaimsPrepared()
              ==> HasPrepareQuorum(qrc, w.c.instance, qrc[k].preparedRound, qrc[k].preparedValue, w.c.n, signed)
    {
      var m := qrc[k];
      assert SentOk(w, signed, m);
      if m.ClaimsPrepared() {
        SubsetSize(SendersIn(m.justification, w.c.instance, m.preparedRound, m.preparedValue, w.c.n, signed),
                   Supporters(qrc, w.c.instance, m.preparedRound, m.preparedValue, w.c.n, signed));
      }
    }
    forall hp | IsHighestPrepared(qrc, hp) && hp.Found?
      ensures HasPrepareQuorum(qrc, w.c.instance, hp.round, hp.value, w.c.n, signed)
    {
      var k :| TopClaim(qrc, k) && qrc[k].preparedRound == hp.round && qrc[k].preparedValue == hp.value;
    }
    var any := HighestExists(qrc);
    TieFreeExactlyWhenSupported(w, events, states, i, qrc, round);
  }

  /** Reading back a list of filed ROUND-CHANGEs gives the same map. */
  lemma ListingRoundTrip(list: seq<Message>, book: map<int, Message>)
    requires IsListing(list, book) && FiledBySender(book)
    requires forall k :: k in book ==> book[k].kind == RoundChange
    ensures QrcOf(list) == book
  {
    forall k | k in book ensures k in QrcOf(list) {
      QrcCovers(list, book[k]);
    }
  }

  lemma {:induction false} QrcCovers(list: seq<Message>, m: Message)
    requires m in list && m.kind == RoundChange
    ensures m.from in QrcOf(list)
  {
    if m != list[|list| - 1] {
      QrcCovers(list[..|list| - 1], m);
    }
  }

  /** The PRE-PREPARE that a leader builds from correct ROUND-CHANGEs passes JustifyPrePrepare at
      every node, now and later, under every order of the maps involved. */
  lemma ProposalAccepted(w: World, events: seq<Event>, states: seq<Global>, i: nat, j: nat, s: NodeState, round: int, m: Message)
    requires w.WellFormed() && Run(w, events, states) && i <= j < |states|
    requires var qrc := RoundChangesFor(s, round);
             && FiledBySender(qrc) && |qrc| >= QuorumSize(w.c.n)
             && forall k :: k in qrc ==> qrc[k] in states[i].sent && qrc[k].kind == RoundChange && qrc[k].round == round
    requires round != 1 && IsProposalOf(w.c, states[i].signed, s, round, m)
    ensures MustJustifyPrePrepare(m, w.c.n, states[j].signed)
  {
    var qrc := RoundChangesFor(s, round);
    ListingRoundTrip(m.justification, qrc);
    SentStays(w, events, states, i, j);
    CorrectQuorumJustifies(w, events, states, j, qrc, round);
    var hp :| IsHighestPrepared(qrc, hp) && m.value == if hp.Found? then hp.value else s.input;
    forall other | IsHighestPrepared(qrc, other) ensures other == hp {
      TieFreeIsUnique(qrc, other, hp);
    }
  }

  lemma {:induction false} SentStays(w: World, events: seq<Event>, states: seq<Global>, i: nat, j: nat)
    requires Run(w, events, states) && i <= j < |states|
    ensures states[i].sent <= states[j].sent
    decreases j
  {
    if i < j {
      SentStays(w, events, states, i, j - 1);
      assert Step(w, states[j - 1], events[j - 1], states[j]);
    }
  }
}
