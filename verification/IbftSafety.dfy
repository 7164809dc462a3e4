/** Runs of an IBFT system and their agreement property.

    A run interleaves deliveries, timeouts and round requests at the correct validators with
    signatures that the faulty validators create at will. The network may deliver any message
    to anyone at any time; only messages whose payload has been signed pass the checks. */
module IbftSafety {
  import opened IbftMessages
  import opened IbftJustification
  import opened IbftNode
  import opened Quorums

  datatype World = World(c: Config, faulty: set<int>)
  {
    ghost predicate WellFormed() {
      c.n > 0 && c.instance > 0 && |faulty| <= MaxFaulty(c.n)
    }

    ghost predicate Correct(p: int) {
      0 <= p < c.n && p !in faulty
    }
  }

  /** The correct nodes, all payloads signed so far, and all messages sent by correct nodes. */
  datatype Global = Global(nodes: map<int, NodeState>, signed: set<Payload>, sent: set<Message>)

  datatype Event =
    | Deliver(p: int, m: Message, out: seq<Message>)
    | Timeout(p: int, out: seq<Message>)
    | Request(p: int, round: int, out: seq<Message>)
    | Kickoff(p: int, out: seq<Message>)
    | Forge(payload: Payload)

  ghost predicate Init(w: World, g: Global) {
    && (forall p :: p in g.nodes <==> w.Correct(p))
    && (forall p :: p in g.nodes ==> g.nodes[p] == Started(p, g.nodes[p].input))
    && g.signed == {} && g.sent == {}
  }

  ghost function Payloads(out: seq<Message>): set<Payload> {
    set m | m in out :: m.Signable()
  }

  /** Node `p` moves to `s` and sends `out`. */
  ghost function Moved(g: Global, p: int, s: NodeState, out: seq<Message>): Global {
    Global(g.nodes[p := s], g.signed + Payloads(out), g.sent + set m | m in out)
  }

  ghost predicate NodeStep(w: World, g: Global, e: Event, s: NodeState, s': NodeState)
    requires !e.Forge?
  {
    match e
    case Deliver(p, m, out) => Handles(w.c, g.signed, s, m, s', out)
    case Timeout(p, out) => TimesOut(w.c, s, s', out)
    case Request(p, round, out) => RequestsRound(w.c, s, round, s', out)
    case Kickoff(p, out) => Proposes(w.c, g.signed, s, s.currentRound, s', out)
  }

  ghost predicate Step(w: World, g: Global, e: Event, g': Global) {
    if e.Forge? then
      e.payload.head.from !in g.nodes && g' == g.(signed := g.signed + {e.payload})
    else
      && e.p in g.nodes && e.p in g'.nodes
      && NodeStep(w, g, e, g.nodes[e.p], g'.nodes[e.p])
      && g' == Moved(g, e.p, g'.nodes[e.p], e.out)
  }

  ghost predicate Run(w: World, events: seq<Event>, states: seq<Global>) {
    && |states| == |events| + 1
    && Init(w, states[0])
    && forall i :: 0 <= i < |events| ==> Step(w, states[i], events[i], states[i + 1])
  }

  /** A PRE-PREPARE that is accepted passes both checks under one walk of its ROUND-CHANGEs. */
  ghost predicate Calm(w: World, g: Global, e: Event) {
    e.Deliver? && e.m.kind == PrePrepare && e.out != [] ==> OneWalkAccepts(e.m, w.c.n, g.signed)
  }

  ghost predicate CalmRun(w: World, events: seq<Event>, states: seq<Global>) {
    Run(w, events, states) && forall i :: 0 <= i < |events| ==> Calm(w, states[i], events[i])
  }

  // ---------- what has been signed ----------

  ghost function Heads(signed: set<Payload>): set<Header> {
    set p | p in signed :: p.head
  }

  ghost function Signers(w: World, signed: set<Payload>, kind: Kind, round: int, value: string): set<int> {
    set h | h in Heads(signed) && h.kind == kind && h.instance == w.c.instance && h.round == round && h.value == value
            && 0 <= h.from < w.c.n :: h.from
  }

  ghost predicate Quorum(w: World, signed: set<Payload>, kind: Kind, round: int, value: string) {
    |Signers(w, signed, kind, round, value)| >= QuorumSize(w.c.n)
  }

  lemma QuorumGrows(w: World, signed: set<Payload>, more: set<Payload>, kind: Kind, round: int, value: string)
    requires signed <= more && Quorum(w, signed, kind, round, value)
    ensures Quorum(w, more, kind, round, value)
  {
    SubsetSize(Signers(w, signed, kind, round, value), Signers(w, more, kind, round, value));
  }

  /** `rc` holds ROUND-CHANGE headers of a quorum for `round`, and the highest prepared claim among
      them, if there is one, is for a round in which a quorum prepared `value`. */
  ghost predicate JustifiedBy(w: World, signed: set<Payload>, round: int, value: string, rc: map<int, Header>) {
    && |rc| >= QuorumSize(w.c.n)
    && (forall k :: k in rc ==> 0 <= k < w.c.n && rc[k] in Heads(signed) && rc[k].kind == RoundChange
                                && rc[k].from == k && rc[k].round == round && rc[k].preparedRound < round)
    && ((forall k :: k in rc ==> rc[k].preparedRound == NO_PREPARED_ROUND)
        || exists top :: top < round && Quorum(w, signed, Prepare, top, value)
                         && forall k :: k in rc ==> rc[k].preparedRound <= top || rc[k].preparedRound == NO_PREPARED_ROUND)
  }

  ghost predicate Justified(w: World, signed: set<Payload>, round: int, value: string) {
    round == 1 || exists rc :: JustifiedBy(w, signed, round, value, rc)
  }

  lemma JustifiedGrows(w: World, signed: set<Payload>, more: set<Payload>, round: int, value: string)
    requires signed <= more && Justified(w, signed, round, value)
    ensures Justified(w, more, round, value)
  {
    if round != 1 {
      var rc :| JustifiedBy(w, signed, round, value, rc);
      forall top | Quorum(w, signed, Prepare, top, value) ensures Quorum(w, more, Prepare, top, value) {
        QuorumGrows(w, signed, more, Prepare, top, value);
      }
      assert JustifiedBy(w, more, round, value, rc);
    }
  }

  // ---------- the invariant ----------

  /** Every PREPARE that `p` signed is for a round it has reached; one of its current round is for the
      value it has accepted there. */
  ghost predicate PreparesOk(w: World, signed: set<Payload>, p: int, s: NodeState) {
    forall h :: h in Heads(signed) && h.from == p && h.kind == Prepare ==>
      && 1 <= h.round <= s.currentRound
      && (h.round == s.currentRound && !s.decided ==> s.phase != New && s.acceptedValue == h.value)
  }

  ghost predicate PreparesUnique(signed: set<Payload>, p: int) {
    forall h, k :: && h in Heads(signed) && k in Heads(signed) && h.from == p && k.from == p
                   && h.kind == Prepare && k.kind == Prepare && h.round == k.round
                   ==> h.value == k.value
  }

  ghost predicate CommitsOk(w: World, signed: set<Payload>, p: int, s: NodeState) {
    forall h :: h in Heads(signed) && h.from == p && h.kind == Commit ==>
      && h.round <= s.currentRound
      && (!s.decided ==> s.preparedRound >= h.round)
      && Quorum(w, signed, Prepare, h.round, h.value)
  }

  /** A ROUND-CHANGE of `p` reports a prepared round at least as high as every earlier COMMIT of `p`. */
  ghost predicate RoundChangesOk(signed: set<Payload>, p: int, s: NodeState) {
    forall h :: h in Heads(signed) && h.from == p && h.kind == RoundChange ==>
      && h.round <= s.currentRound
      && forall k :: k in Heads(signed) && k.from == p && k.kind == Commit && k.round < h.round ==> h.preparedRound >= k.round
  }

  ghost predicate PrepareBookOk(w: World, signed: set<Payload>, book: VoteBook) {
    forall round, value, k :: k in VotesFor(book, round, value) ==>
      var m := VotesFor(book, round, value)[k];
      m.from == k && Supports(m, w.c.instance, round, value, w.c.n, signed)
  }

  ghost predicate CommitBookOk(w: World, signed: set<Payload>, book: VoteBook) {
    forall round, value, k :: k in VotesFor(book, round, value) ==>
      var m := VotesFor(book, round, value)[k];
      m.from == k && IsCommitFor(m, w.c.instance, round, value, w.c.n, signed)
  }

  /** What an undecided node says it has prepared, it has a quorum of PREPAREs for. */
  ghost predicate PreparedOk(w: World, s: NodeState) {
    !s.decided ==>
      && NO_PREPARED_ROUND <= s.preparedRound <= s.currentRound
      && (s.preparedRound == s.currentRound ==> s.phase == IsPrepared)
      && (s.preparedRound == NO_PREPARED_ROUND <==> s.preparedValue == NO_PREPARED_VALUE)
      && (s.preparedValue != NO_PREPARED_VALUE ==> Beta(s.preparedValue))
      && (s.preparedRound != NO_PREPARED_ROUND
          ==> |VotesFor(s.prepares, s.preparedRound, s.preparedValue)| >= QuorumSize(w.c.n))
  }

  ghost predicate DecisionOk(w: World, signed: set<Payload>, s: NodeState) {
    s.decided ==> exists round :: Quorum(w, signed, Commit, round, s.decisionValue)
  }

  ghost predicate NodeOk(w: World, signed: set<Payload>, p: int, s: NodeState) {
    && s.id == p && s.currentRound >= 1
    && PreparesOk(w, signed, p, s) && PreparesUnique(signed, p)
    && CommitsOk(w, signed, p, s) && RoundChangesOk(signed, p, s)
    && PrepareBookOk(w, signed, s.prepares) && CommitBookOk(w, signed, s.commits)
    && PreparedOk(w, s) && DecisionOk(w, signed, s)
  }

  /** A ROUND-CHANGE that a correct node sent is valid, and a prepared claim in it comes with a
      quorum of PREPAREs. */
  ghost predicate SentOk(w: World, signed: set<Payload>, m: Message) {
    m.kind == RoundChange ==>
      && RoundChangeFor(m, w.c.instance, m.round, w.c.n, signed)
      && (m.ClaimsPrepared() ==>
            |SendersIn(m.justification, w.c.instance, m.preparedRound, m.preparedValue, w.c.n, signed)| >= QuorumSize(w.c.n))
  }

  /** What holds in every run. */
  ghost predicate Inv(w: World, g: Global) {
    && (forall p :: p in g.nodes <==> w.Correct(p))
    && (forall p :: p in g.nodes ==> NodeOk(w, g.signed, p, g.nodes[p]))
    && (forall m :: m in g.sent ==> SentOk(w, g.signed, m))
  }

  /** Every PREPARE of a correct validator is for a justified value. */
  ghost predicate PreparesJustified(w: World, signed: set<Payload>) {
    forall h :: h in Heads(signed) && w.Correct(h.from) && h.kind == Prepare ==> Justified(w, signed, h.round, h.value)
  }

  /** What holds besides in the runs whose accepted PRE-PREPAREs pass under one walk. */
  ghost predicate CalmInv(w: World, g: Global) {
    Inv(w, g) && PreparesJustified(w, g.signed)
  }

  // ---------- agreement from the invariant ----------

  lemma PrepareQuorumUnique(w: World, g: Global, round: int, a: string, b: string)
    requires w.WellFormed() && Inv(w, g)
    requires Quorum(w, g.signed, Prepare, round, a) && Quorum(w, g.signed, Prepare, round, b)
    ensures a == b
  {
    QuorumArithmetic(w.c.n);
    var p := CommonCorrectMember(Signers(w, g.signed, Prepare, round, a), Signers(w, g.signed, Prepare, round, b), w.faulty, w.c.n);
    assert NodeOk(w, g.signed, p, g.nodes[p]);
  }

  lemma CommitNeedsPrepare(w: World, g: Global, round: int, v: string)
    requires w.WellFormed() && Inv(w, g)
    requires Quorum(w, g.signed, Commit, round, v)
    ensures Quorum(w, g.signed, Prepare, round, v)
  {
    QuorumArithmetic(w.c.n);
    var p := CorrectMember(Signers(w, g.signed, Commit, round, v), w.faulty);
    assert NodeOk(w, g.signed, p, g.nodes[p]);
  }

  /** A quorum of ROUND-CHANGEs for a later round shares a correct validator with the COMMIT
      quorum, and that validator's claim keeps every justified value in place. */
  lemma JustifiedKeepsCommitted(w: World, g: Global, round: int, v: string, later: int, u: string)
    requires w.WellFormed() && Inv(w, g)
    requires Quorum(w, g.signed, Commit, round, v) && round < later
    requires Justified(w, g.signed, later, u) && later != 1
    requires forall r, x :: round <= r < later && Quorum(w, g.signed, Prepare, r, x) ==> x == v
    requires round >= 1
    ensures u == v
  {
    var rc :| JustifiedBy(w, g.signed, later, u, rc);
    QuorumArithmetic(w.c.n);
    assert |rc.Keys| == |rc|;
    var p := CommonCorrectMember(Signers(w, g.signed, Commit, round, v), rc.Keys, w.faulty, w.c.n);
    assert NodeOk(w, g.signed, p, g.nodes[p]);
    assert rc[p].preparedRound >= round;
  }

  lemma CommittedRoundPositive(w: World, g: Global, round: int, v: string)
    requires w.WellFormed() && Inv(w, g)
    requires Quorum(w, g.signed, Prepare, round, v)
    ensures round >= 1
  {
    QuorumArithmetic(w.c.n);
    var p := CorrectMember(Signers(w, g.signed, Prepare, round, v), w.faulty);
    assert NodeOk(w, g.signed, p, g.nodes[p]);
  }

  lemma {:induction false} CommittedValueStays(w: World, g: Global, round: int, v: string, later: int, u: string)
    requires w.WellFormed() && CalmInv(w, g)
    requires Quorum(w, g.signed, Commit, round, v) && round <= later
    requires Quorum(w, g.signed, Prepare, later, u)
    ensures u == v
    decreases later - round
  {
    CommitNeedsPrepare(w, g, round, v);
    if round == later {
      PrepareQuorumUnique(w, g, round, u, v);
    } else {
      QuorumArithmetic(w.c.n);
      var p := CorrectMember(Signers(w, g.signed, Prepare, later, u), w.faulty);
      assert NodeOk(w, g.signed, p, g.nodes[p]);
      forall r, x | round <= r < later && Quorum(w, g.signed, Prepare, r, x) ensures x == v {
        CommittedValueStays(w, g, round, v, r, x);
      }
      CommittedRoundPositive(w, g, round, v);
      JustifiedKeepsCommitted(w, g, round, v, later, u);
    }
  }

  lemma CommitsAgree(w: World, g: Global, r1: int, v1: string, r2: int, v2: string)
    requires w.WellFormed() && CalmInv(w, g)
    requires Quorum(w, g.signed, Commit, r1, v1) && Quorum(w, g.signed, Commit, r2, v2)
    ensures v1 == v2
  {
    CommitNeedsPrepare(w, g, r1, v1);
    CommitNeedsPrepare(w, g, r2, v2);
    if r1 <= r2 {
      CommittedValueStays(w, g, r1, v1, r2, v2);
    } else {
      CommittedValueStays(w, g, r2, v2, r1, v1);
    }
  }
}
