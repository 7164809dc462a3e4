/** One faulty validator is enough to break agreement. All correct validators prepare "A" in round 1, and one of
    them decides it. In a later round that the faulty validator leads, it attaches its own ROUND-CHANGE, which claims
    round 1 for "B", to those of the others, which claim round 1 for "A" with proof. JustifyRoundChange can meet a
    claim for "A" first and accept; the second walk of JustifyPrePrepare can meet the claim for "B" first and let "B"
    through. The others then decide "B". Without faulty validators there are no ties, and all runs agree. */
module IbftTie {
  import opened IbftMessages
  import opened IbftJustification
  import opened IbftNode
  import opened IbftSafety
  import opened IbftRuns
  import opened Quorums

  // ---------- reachable states ----------

  ghost predicate EndsIn(w: World, events: seq<Event>, states: seq<Global>, g: Global) {
    Run(w, events, states) && states[|events|] == g
  }

  ghost predicate Reachable(w: World, g: Global) {
    exists events, states :: EndsIn(w, events, states, g)
  }

  lemma Extend(w: World, g: Global, e: Event, g': Global)
    requires Reachable(w, g) && Step(w, g, e, g')
    ensures Reachable(w, g')
  {
    var events, states :| EndsIn(w, events, states, g);
    var events', states' := events + [e], states + [g'];
    forall i | 0 <= i < |events'| ensures Step(w, states'[i], events'[i], states'[i + 1]) {
      if i < |events| {
        assert states'[i] == states[i] && states'[i + 1] == states[i + 1] && events'[i] == events[i];
      }
    }
    assert EndsIn(w, events', states', g');
  }

  /** The nodes outside `moved` are untouched, and everything signed before is still there. */
  ghost predicate Later(w: World, g: Global, g': Global, moved: set<int>) {
    && Reachable(w, g') && g'.nodes.Keys == g.nodes.Keys && g.signed <= g'.signed
    && forall p :: p in g.nodes && p !in moved ==> g'.nodes[p] == g.nodes[p]
  }

  lemma LaterTwice(w: World, g: Global, g1: Global, g2: Global, a: set<int>, b: set<int>)
    requires Later(w, g, g1, a) && Later(w, g1, g2, b)
    ensures Later(w, g, g2, a + b)
  {
  }

  /** A correct node takes the step `e` into state `s` and sends the messages of `e`. */
  lemma Take(w: World, g: Global, e: Event, s: NodeState) returns (g': Global)
    requires Reachable(w, g) && !e.Forge? && e.p in g.nodes && NodeStep(w, g, e, g.nodes[e.p], s)
    ensures Later(w, g, g', {e.p}) && g'.nodes[e.p] == s && forall m :: m in e.out ==> m.Signable() in g'.signed
  {
    g' := Moved(g, e.p, s, e.out);
    Extend(w, g, e, g');
    forall m | m in e.out ensures m.Signable() in g'.signed {
      assert m.Signable() in Payloads(e.out);
    }
  }

  /** Faulty validators sign the messages. */
  lemma {:induction false} SignAll(w: World, g: Global, msgs: seq<Message>) returns (g': Global)
    requires Reachable(w, g) && forall m :: m in msgs ==> m.from !in g.nodes
    ensures Later(w, g, g', {}) && forall m :: m in msgs ==> m.Signable() in g'.signed
  {
    g' := g;
    if msgs != [] {
      var last := msgs[|msgs| - 1];
      var g1 := SignAll(w, g, msgs[..|msgs| - 1]);
      assert last in msgs;
      g' := g1.(signed := g1.signed + {last.Signable()});
      Extend(w, g1, Forge(last.Signable()), g');
    }
  }

  lemma SignOne(w: World, g: Global, m: Message) returns (g': Global)
    requires Reachable(w, g) && m.from !in g.nodes
    ensures Later(w, g, g', {}) && m.Signable() in g'.signed
  {
    g' := SignAll(w, g, [m]);
    assert m in [m];
  }

  lemma ShortIsValid(value: string)
    requires |value| == 1
    ensures Beta(value)
  {
    assert forall i :: 0 <= i <= |value| ==> |value[i..]| < |"INVALID"|;
  }

  // ---------- panels ----------

  /** As many different validators as make a quorum. */
  ghost predicate IsPanel(w: World, panel: seq<int>) {
    && |panel| == QuorumSize(w.c.n) && (forall i :: 0 <= i < |panel| ==> 0 <= panel[i] < w.c.n)
    && forall i, j :: 0 <= i < j < |panel| ==> panel[i] != panel[j]
  }

  function Ballot(w: World, kind: Kind, p: int, round: int, value: string): Message {
    Vote(kind, p, w.c.instance, round, value)
  }

  function Ballots(w: World, kind: Kind, panel: seq<int>, round: int, value: string): seq<Message> {
    seq(|panel|, i requires 0 <= i < |panel| => Ballot(w, kind, panel[i], round, value))
  }

  function Book(w: World, kind: Kind, panel: seq<int>, round: int, value: string): map<int, Message> {
    map p | p in panel :: Ballot(w, kind, p, round, value)
  }

  ghost predicate AllVoted(w: World, signed: set<Payload>, kind: Kind, panel: seq<int>, round: int, value: string) {
    forall p :: p in panel ==> Ballot(w, kind, p, round, value).Signable() in signed
  }

  lemma PanelOf(w: World, ids: set<int>) returns (panel: seq<int>)
    requires ids <= Members(w.c.n) && |ids| >= QuorumSize(w.c.n)
    ensures IsPanel(w, panel) && forall p :: p in panel ==> p in ids
  {
    var some := SubsetOfSize(ids, QuorumSize(w.c.n));
    panel := Listing(some);
    ListingSize(panel, some);
    forall i | 0 <= i < |panel| ensures 0 <= panel[i] < w.c.n {
      assert panel[i] in panel;
    }
  }

  lemma {:induction false} ListingSize(order: seq<int>, ids: set<int>)
    requires (forall id :: id in order <==> id in ids) && forall i, j :: 0 <= i < j < |order| ==> order[i] != order[j]
    ensures |order| == |ids|
  {
    if order == [] {
      assert forall id :: id in ids ==> id in order;
      assert ids == {};
    } else {
      var last := order[|order| - 1];
      assert last in order;
      ListingSize(order[..|order| - 1], ids - {last});
    }
  }

  lemma BookSize(w: World, kind: Kind, panel: seq<int>, round: int, value: string)
    requires forall i, j :: 0 <= i < j < |panel| ==> panel[i] != panel[j]
    ensures |Book(w, kind, panel, round, value)| == |panel|
  {
    var ids := set p | p in panel;
    ListingSize(panel, ids);
    assert Book(w, kind, panel, round, value).Keys == ids;
  }

  lemma BallotsListed(w: World, kind: Kind, panel: seq<int>, round: int, value: string)
    requires IsPanel(w, panel)
    ensures IsListing(Ballots(w, kind, panel, round, value), Book(w, kind, panel, round, value))
  {
    BookSize(w, kind, panel, round, value);
    var list, book := Ballots(w, kind, panel, round, value), Book(w, kind, panel, round, value);
    forall p | p in book ensures book[p] in list {
      var i :| 0 <= i < |panel| && panel[i] == p;
      assert list[i] == book[p];
    }
  }

  // ---------- receiving PREPAREs ----------

  /** The node has received the PREPAREs of the first k of the panel and nothing else. */
  ghost predicate Heard(w: World, s: NodeState, s': NodeState, panel: seq<int>, k: nat, round: int, value: string) {
    && k <= |panel| && s' == s.(prepares := s'.prepares) && s'.prepares == HeardBook(w, s.prepares, panel[..k], round, value)
  }

  function HeardBook(w: World, book: VoteBook, senders: seq<int>, round: int, value: string): VoteBook {
    if senders == [] then book else book[(round, value) := Book(w, Prepare, senders, round, value)]
  }

  lemma HeardBookLonger(w: World, book: VoteBook, senders: seq<int>, p: int, round: int, value: string)
    requires (round, value) !in book && p !in senders && forall i, j :: 0 <= i < j < |senders| ==> senders[i] != senders[j]
    ensures var book' := Record(HeardBook(w, book, senders, round, value), Ballot(w, Prepare, p, round, value));
            book' == HeardBook(w, book, senders + [p], round, value) && |VotesFor(book', round, value)| == |senders| + 1
  {
    var m, before := Ballot(w, Prepare, p, round, value), HeardBook(w, book, senders, round, value);
    assert Book(w, Prepare, [], round, value) == map[];
    assert VotesFor(before, round, value) == Book(w, Prepare, senders, round, value);
    assert Book(w, Prepare, senders, round, value)[p := m] == Book(w, Prepare, senders + [p], round, value);
    BookSize(w, Prepare, senders + [p], round, value);
  }

  /** A node that has accepted `value` in `round` and heard no PREPARE for it. */
  ghost predicate Listening(s: NodeState, p: int, round: int, value: string) {
    && s.id == p && s.phase == PrePrepared && s.currentRound == s.acceptedRound == round && s.acceptedValue == value
    && !s.decided && !s.commitSent && (round, value) !in s.prepares
  }

  lemma NextHeard(w: World, s: NodeState, s': NodeState, panel: seq<int>, k: nat, round: int, value: string)
    requires IsPanel(w, panel) && k < |panel| && (round, value) !in s.prepares && Heard(w, s, s', panel, k, round, value)
    ensures var m := Ballot(w, Prepare, panel[k], round, value);
            && Heard(w, s, WithPrepare(s', m), panel, k + 1, round, value)
            && |VotesFor(Record(s'.prepares, m), round, value)| == k + 1
  {
    assert panel[..k + 1] == panel[..k] + [panel[k]];
    HeardBookLonger(w, s.prepares, panel[..k], panel[k], round, value);
  }

  /** One PREPARE that does not complete the quorum. */
  lemma HearOne(w: World, g: Global, p: int, m: Message) returns (g': Global)
    requires Reachable(w, g) && p in g.nodes && !g.nodes[p].decided && Relevant(w.c, g.nodes[p], m) && m.kind == Prepare
    requires IsValidMessage(m, w.c.n, g.signed) && |VotesFor(Record(g.nodes[p].prepares, m), m.round, m.value)| < QuorumSize(w.c.n)
    ensures Later(w, g, g', {p}) && g'.nodes[p] == WithPrepare(g.nodes[p], m)
  {
    g' := Take(w, g, Deliver(p, m, []), WithPrepare(g.nodes[p], m));
  }

  /** One PREPARE that completes it. */
  lemma HearLast(w: World, g: Global, p: int, m: Message) returns (g': Global)
    requires Reachable(w, g) && p in g.nodes && !g.nodes[p].decided && Relevant(w.c, g.nodes[p], m) && m.kind == Prepare
    requires IsValidMessage(m, w.c.n, g.signed) && |VotesFor(Record(g.nodes[p].prepares, m), m.round, m.value)| == QuorumSize(w.c.n)
    requires g.nodes[p].id == p && g.nodes[p].phase == PrePrepared && !g.nodes[p].commitSent
    ensures Later(w, g, g', {p}) && g'.nodes[p] == WithPrepared(WithPrepare(g.nodes[p], m), m.round, m.value)
    ensures Ballot(w, Commit, p, m.round, m.value).Signable() in g'.signed
  {
    var commit := Ballot(w, Commit, p, m.round, m.value);
    g' := Take(w, g, Deliver(p, m, [commit]), WithPrepared(WithPrepare(g.nodes[p], m), m.round, m.value));
    assert commit in [commit];
  }

  lemma BallotValid(w: World, signed: set<Payload>, panel: seq<int>, i: nat, round: int, value: string)
    requires IsPanel(w, panel) && i < |panel| && AllVoted(w, signed, Prepare, panel, round, value) && round >= 1 && |value| == 1 && w.c.instance > 0
    ensures IsValidMessage(Ballot(w, Prepare, panel[i], round, value), w.c.n, signed)
  {
    ShortIsValid(value);
    assert panel[i] in panel;
  }

  lemma {:induction false} HearSome(w: World, g: Global, p: int, panel: seq<int>, k: nat, round: int, value: string) returns (g': Global)
    requires Reachable(w, g) && p in g.nodes && IsPanel(w, panel) && k < |panel| && round >= 1 && |value| == 1 && w.c.instance > 0
    requires AllVoted(w, g.signed, Prepare, panel, round, value) && Listening(g.nodes[p], p, round, value)
    ensures Later(w, g, g', {p}) && Heard(w, g.nodes[p], g'.nodes[p], panel, k, round, value)
  {
    g' := g;
    if k > 0 {
      var g1 := HearSome(w, g, p, panel, k - 1, round, value);
      NextHeard(w, g.nodes[p], g1.nodes[p], panel, k - 1, round, value);
      BallotValid(w, g1.signed, panel, k - 1, round, value);
      g' := HearOne(w, g1, p, Ballot(w, Prepare, panel[k - 1], round, value));
      LaterTwice(w, g, g1, g', {p}, {p});
    }
  }

  /** The last PREPARE of the panel makes the node prepared, and it sends its COMMIT. */
  lemma HearPanel(w: World, g: Global, p: int, panel: seq<int>, round: int, value: string) returns (g': Global)
    requires Reachable(w, g) && p in g.nodes && IsPanel(w, panel) && round >= 1 && |value| == 1 && w.c.instance > 0
    requires AllVoted(w, g.signed, Prepare, panel, round, value) && Listening(g.nodes[p], p, round, value)
    ensures Later(w, g, g', {p}) && Ballot(w, Commit, p, round, value).Signable() in g'.signed
    ensures var s := g.nodes[p];
            g'.nodes[p] == WithPrepared(s.(prepares := s.prepares[(round, value) := Book(w, Prepare, panel, round, value)]), round, value)
  {
    var last := |panel| - 1;
    var g1 := HearSome(w, g, p, panel, last, round, value);
    NextHeard(w, g.nodes[p], g1.nodes[p], panel, last, round, value);
    assert panel[..last + 1] == panel;
    BallotValid(w, g1.signed, panel, last, round, value);
    g' := HearLast(w, g1, p, Ballot(w, Prepare, panel[last], round, value));
    LaterTwice(w, g, g1, g', {p}, {p});
  }

  // ---------- deciding ----------

  function Certificate(w: World, bad: int, panel: seq<int>, round: int, value: string): Message {
    Message(DecisionCertificate, bad, w.c.instance, round, value, NO_PREPARED_ROUND, NO_PREPARED_VALUE, Ballots(w, Commit, panel, round, value))
  }

  lemma CertificateHolds(w: World, signed: set<Payload>, panel: seq<int>, round: int, value: string)
    requires IsPanel(w, panel) && AllVoted(w, signed, Commit, panel, round, value) && round >= 1 && |value| == 1 && w.c.instance > 0
    ensures IsCommitCertificate(Ballots(w, Commit, panel, round, value), w.c.instance, w.c.n, signed)
  {
    ShortIsValid(value);
    var list := Ballots(w, Commit, panel, round, value);
    var ids := set p | p in panel;
    ListingSize(panel, ids);
    forall p | p in ids ensures p in set x | x in list :: x.from {
      var i :| 0 <= i < |panel| && panel[i] == p;
      assert list[i] in list && list[i].from == p;
    }
    SubsetSize(ids, set x | x in list :: x.from);
    forall x | x in list ensures IsCommitFor(x, w.c.instance, list[0].round, list[0].value, w.c.n, signed) {
      var i :| 0 <= i < |list| && list[i] == x;
      assert panel[i] in panel;
    }
  }

  /** A node decides on a certificate that a faulty validator collected. */
  lemma DecideAt(w: World, g: Global, p: int, bad: int, panel: seq<int>, round: int, value: string) returns (g': Global)
    requires Reachable(w, g) && p in g.nodes && !g.nodes[p].decided && bad !in g.nodes && 0 <= bad < w.c.n
    requires IsPanel(w, panel) && AllVoted(w, g.signed, Commit, panel, round, value) && round >= 1 && |value| == 1 && w.c.instance > 0
    ensures Later(w, g, g', {p}) && g'.nodes[p].decided && g'.nodes[p].decisionValue == value
  {
    ShortIsValid(value);
    var m := Certificate(w, bad, panel, round, value);
    var g1 := SignOne(w, g, m);
    CertificateHolds(w, g1.signed, panel, round, value);
    var list := m.justification;
    assert list[0] == Ballot(w, Commit, panel[0], round, value);
    var s := g1.nodes[p].(decided := true, phase := Decided, decisionValue := value, certificate := list,
                          preparedValue := value, preparedRound := round, acceptedValue := value, acceptedRound := round);
    g' := Take(w, g1, Deliver(p, m, []), s);
    LaterTwice(w, g, g1, g', {}, {p});
    assert {} + {p} == {p};
  }

  // ---------- the stages of a node ----------

  /** The validators that the votes of round 1 and of the later round come from, and the later round. */
  datatype Plan = Plan(w: World, panel: seq<int>, second: seq<int>, round: int)
  {
    ghost predicate Ok() {
      IsPanel(w, panel) && IsPanel(w, second) && round >= 2 && w.c.instance > 0
    }
  }

  datatype Stage = Fresh | GotA | HasA | In(round: int) | GotB | HasB

  /** Prepared with "A" in round 1. */
  ghost predicate HoldsA(pl: Plan, s: NodeState, p: int) {
    && s.id == p && !s.decided && s.preparedRound == 1 && s.preparedValue == "A"
    && s.prepares == map[(1, "A") := Book(pl.w, Prepare, pl.panel, 1, "A")]
  }

  ghost predicate At(pl: Plan, s: NodeState, p: int, st: Stage) {
    match st
    case Fresh =>
      s.id == p && s.currentRound == 1 && s.phase == New && !s.decided && !s.commitSent && s.prepares == map[] && s.roundChangeSent == {}
    case GotA => Listening(s, p, 1, "A") && s.prepares == map[] && s.roundChangeSent == {}
    case HasA => HoldsA(pl, s, p) && s.currentRound == 1 && s.roundChangeSent == {}
    case In(r) =>
      HoldsA(pl, s, p) && s.currentRound == r && s.phase == New && !s.commitSent && forall k :: k in s.roundChangeSent ==> k <= r
    case GotB => HoldsA(pl, s, p) && Listening(s, p, pl.round, "B")
    case HasB => s.id == p && !s.decided
  }

  /** The truthful ROUND-CHANGE of a node that prepared "A". */
  function Claim(pl: Plan, p: int, round: int): Message {
    Message(RoundChange, p, pl.w.c.instance, round, "", 1, "A", Ballots(pl.w, Prepare, pl.panel, 1, "A"))
  }

  /** What a node has signed on reaching a stage. */
  ghost predicate Said(pl: Plan, signed: set<Payload>, p: int, st: Stage) {
    match st
    case Fresh => true
    case GotA => Ballot(pl.w, Prepare, p, 1, "A").Signable() in signed
    case HasA => Ballot(pl.w, Commit, p, 1, "A").Signable() in signed
    case In(r) => Claim(pl, p, r).Signable() in signed
    case GotB => Ballot(pl.w, Prepare, p, pl.round, "B").Signable() in signed
    case HasB => Ballot(pl.w, Commit, p, pl.round, "B").Signable() in signed
  }

  /** A proposal that every node in its round may accept. */
  ghost predicate Acceptable(w: World, signed: set<Payload>, m: Message, round: int, value: string) {
    && m.kind == PrePrepare && m.round == round >= 1 && m.value == value && m.instance == w.c.instance && m.from == Leader(w.c.instance, round, w.c.n)
    && IsValidMessage(m, w.c.n, signed) && MayJustifyPrePrepare(m, w.c.n, signed)
  }

  /** The next stage, and what must have been signed before. */
  ghost predicate MayAdvance(pl: Plan, signed: set<Payload>, st: Stage, st': Stage, m: Message) {
    || (st == Fresh && st' == GotA && Acceptable(pl.w, signed, m, 1, "A"))
    || (st == GotA && st' == HasA && AllVoted(pl.w, signed, Prepare, pl.panel, 1, "A"))
    || (st == HasA && st' == In(2))
    || (st.In? && st.round >= 2 && st' == In(st.round + 1))
    || (st == In(pl.round) && st' == GotB && Acceptable(pl.w, signed, m, pl.round, "B"))
    || (st == GotB && st' == HasB && AllVoted(pl.w, signed, Prepare, pl.second, pl.round, "B"))
  }

  lemma AcceptableGrows(w: World, signed: set<Payload>, more: set<Payload>, m: Message, round: int, value: string)
    requires Acceptable(w, signed, m, round, value) && signed <= more
    ensures Acceptable(w, more, m, round, value)
  {
    MayJustifyGrows(m, w.c.n, signed, more);
  }

  lemma MayAdvanceGrows(pl: Plan, signed: set<Payload>, more: set<Payload>, st: Stage, st': Stage, m: Message)
    requires MayAdvance(pl, signed, st, st', m) && signed <= more
    ensures MayAdvance(pl, more, st, st', m)
  {
    if st == Fresh {
      AcceptableGrows(pl.w, signed, more, m, 1, "A");
    } else if st' == GotB {
      AcceptableGrows(pl.w, signed, more, m, pl.round, "B");
    }
  }

  lemma MayJustifyGrows(m: Message, n: nat, signed: set<Payload>, more: set<Payload>)
    requires MayJustifyPrePrepare(m, n, signed) && signed <= more
    ensures MayJustifyPrePrepare(m, n, more)
  {
    if m.round != 1 {
      var qrc := QrcOf(m.justification);
      var hp :| IsHighestPrepared(qrc, hp) && (hp.Found? ==> HasPrepareQuorum(qrc, m.instance, hp.round, hp.value, n, signed));
      if hp.Found? {
        forall k | k in qrc
          ensures SendersIn(qrc[k].justification, m.instance, hp.round, hp.value, n, signed)
                  <= SendersIn(qrc[k].justification, m.instance, hp.round, hp.value, n, more)
        {
        }
        SubsetSize(Supporters(qrc, m.instance, hp.round, hp.value, n, signed), Supporters(qrc, m.instance, hp.round, hp.value, n, more));
      }
    }
  }

  // ---------- from stage to stage ----------

  ghost predicate Standing(pl: Plan, g: Global, p: int, st: Stage) {
    p in g.nodes && At(pl, g.nodes[p], p, st)
  }

  ghost predicate Advanced(pl: Plan, g: Global, p: int, st: Stage, g': Global) {
    Later(pl.w, g, g', {p}) && Standing(pl, g', p, st) && Said(pl, g'.signed, p, st)
  }

  lemma Accepts(pl: Plan, g: Global, p: int, st: Stage, st': Stage, m: Message) returns (g': Global)
    requires pl.Ok() && Reachable(pl.w, g) && Standing(pl, g, p, st) && MayAdvance(pl, g.signed, st, st', m) && (st' == GotA || st' == GotB)
    ensures Advanced(pl, g, p, st', g')
  {
    var vote := Ballot(pl.w, Prepare, p, m.round, m.value);
    var s := g.nodes[p].(acceptedValue := m.value, acceptedRound := m.round, phase := PrePrepared);
    assert "A"[0] != "B"[0];
    g' := Take(pl.w, g, Deliver(p, m, [vote]), s);
    assert vote in [vote];
  }

  lemma Prepares(pl: Plan, g: Global, p: int, st: Stage, st': Stage, m: Message) returns (g': Global)
    requires pl.Ok() && Reachable(pl.w, g) && Standing(pl, g, p, st) && MayAdvance(pl, g.signed, st, st', m) && (st' == HasA || st' == HasB)
    ensures Advanced(pl, g, p, st', g')
  {
    if st' == HasA {
      g' := HearPanel(pl.w, g, p, pl.panel, 1, "A");
    } else {
      g' := HearPanel(pl.w, g, p, pl.second, pl.round, "B");
    }
  }

  lemma TimesOutAt(pl: Plan, g: Global, p: int, st: Stage, round: int) returns (g': Global)
    requires pl.Ok() && Reachable(pl.w, g) && Standing(pl, g, p, st) && ((st == HasA && round == 2) || (st.In? && st.round >= 2 && round == st.round + 1))
    ensures Advanced(pl, g, p, In(round), g')
  {
    g' := OneTimeout(pl, g, p, round);
  }

  lemma OneTimeout(pl: Plan, g: Global, p: int, round: int) returns (g': Global)
    requires pl.Ok() && Reachable(pl.w, g) && p in g.nodes && HoldsA(pl, g.nodes[p], p)
    requires round == g.nodes[p].currentRound + 1 && round !in g.nodes[p].roundChangeSent
    ensures Later(pl.w, g, g', {p}) && g'.nodes[p] == Announced(Entered(g.nodes[p], round), round) && Claim(pl, p, round).Signable() in g'.signed
  {
    var s, m := g.nodes[p], Claim(pl, p, round);
    ClaimAnnounced(pl, s, p, round);
    g' := Take(pl.w, g, Timeout(p, [m]), Announced(Entered(s, round), round));
    assert m in [m];
  }

  lemma ClaimAnnounced(pl: Plan, s: NodeState, p: int, round: int)
    requires pl.Ok() && HoldsA(pl, s, p) && round > s.currentRound && round !in s.roundChangeSent
    ensures Announces(pl.w.c, Entered(s, round), round, [Claim(pl, p, round)])
  {
    BallotsListed(pl.w, Prepare, pl.panel, 1, "A");
    assert OwnPrepares(Entered(s, round)) == Book(pl.w, Prepare, pl.panel, 1, "A");
  }

  lemma OneAdvances(pl: Plan, g: Global, p: int, st: Stage, st': Stage, m: Message) returns (g': Global)
    requires pl.Ok() && Reachable(pl.w, g) && Standing(pl, g, p, st) && MayAdvance(pl, g.signed, st, st', m)
    ensures Advanced(pl, g, p, st', g')
  {
    match st' {
      case GotA => g' := Accepts(pl, g, p, st, st', m);
      case GotB => g' := Accepts(pl, g, p, st, st', m);
      case HasA => g' := Prepares(pl, g, p, st, st', m);
      case HasB => g' := Prepares(pl, g, p, st, st', m);
      case In(r) => g' := TimesOutAt(pl, g, p, st, r);
    }
  }

  ghost predicate AllStanding(pl: Plan, g: Global, members: set<int>, st: Stage) {
    forall p :: p in members ==> Standing(pl, g, p, st)
  }

  ghost predicate AllSaid(pl: Plan, g: Global, members: set<int>, st: Stage) {
    forall p :: p in members ==> Said(pl, g.signed, p, st)
  }

  /** The nodes go on to the next stage, one after the other. */
  lemma {:induction false} AllAdvance(pl: Plan, g: Global, members: set<int>, st: Stage, st': Stage, m: Message) returns (g': Global)
    requires pl.Ok() && Reachable(pl.w, g) && AllStanding(pl, g, members, st) && MayAdvance(pl, g.signed, st, st', m)
    ensures Later(pl.w, g, g', members) && AllStanding(pl, g', members, st') && AllSaid(pl, g', members, st')
    decreases |members|
  {
    g' := g;
    if members != {} {
      NonEmpty(members);
      var p :| p in members;
      var rest := members - {p};
      var g1 := AllAdvance(pl, g, rest, st, st', m);
      assert Standing(pl, g, p, st);
      MayAdvanceGrows(pl, g.signed, g1.signed, st, st', m);
      g' := OneAdvances(pl, g1, p, st, st', m);
      LaterTwice(pl.w, g, g1, g', rest, {p});
      assert rest + {p} == members;
      forall q | q in members ensures Standing(pl, g', q, st') && Said(pl, g'.signed, q, st') {
        if q != p {
          assert Standing(pl, g1, q, st') && Said(pl, g1.signed, q, st');
        }
      }
    }
  }

  lemma StillStanding(pl: Plan, g: Global, g': Global, moved: set<int>, members: set<int>, st: Stage)
    requires Later(pl.w, g, g', moved) && moved * members == {} && AllStanding(pl, g, members, st)
    ensures AllStanding(pl, g', members, st)
  {
    forall p | p in members ensures Standing(pl, g', p, st) {
      assert Standing(pl, g, p, st) && p !in moved * members;
    }
  }

  lemma PartStanding(pl: Plan, g: Global, all: set<int>, part: set<int>, st: Stage)
    requires AllStanding(pl, g, all, st) && part <= all
    ensures AllStanding(pl, g, part, st)
  {
  }

  // ---------- round 1 ----------

  ghost function CorrectOnes(w: World): set<int> {
    Members(w.c.n) - w.faulty
  }

  ghost predicate NodesCorrect(w: World, g: Global) {
    forall p :: p in g.nodes <==> w.Correct(p)
  }

  lemma Beginning(pl: Plan) returns (g: Global)
    ensures Reachable(pl.w, g) && NodesCorrect(pl.w, g) && forall p :: p in g.nodes ==> g.nodes[p] == Started(p, "A")
  {
    g := Global(map p | p in CorrectOnes(pl.w) :: Started(p, "A"), {}, {});
    assert Init(pl.w, g);
    assert EndsIn(pl.w, [], [g], g);
  }

  function FirstProposal(w: World): Message {
    Message(PrePrepare, Leader(w.c.instance, 1, w.c.n), w.c.instance, 1, "A", NO_PREPARED_ROUND, NO_PREPARED_VALUE, [])
  }

  /** The leader of round 1 proposes "A", whether it is faulty or not. */
  lemma ProposeA(pl: Plan) returns (g: Global)
    requires pl.Ok() && pl.w.c.n > 0
    ensures Reachable(pl.w, g) && NodesCorrect(pl.w, g) && AllStanding(pl, g, CorrectOnes(pl.w), Fresh)
    ensures Acceptable(pl.w, g.signed, FirstProposal(pl.w), 1, "A")
  {
    var g0 := Beginning(pl);
    var m := FirstProposal(pl.w);
    ShortIsValid("A");
    if m.from in g0.nodes {
      g := Take(pl.w, g0, Kickoff(m.from, [m]), g0.nodes[m.from].(prePrepareSent := {1}));
      assert m in [m];
    } else {
      g := SignOne(pl.w, g0, m);
    }
    forall p | p in CorrectOnes(pl.w) ensures Standing(pl, g, p, Fresh) {
      assert p in g0.nodes;
    }
  }

  /** The faulty validators cast a vote. */
  lemma FaultyVote(w: World, g: Global, kind: Kind, round: int, value: string) returns (g': Global)
    requires Reachable(w, g) && NodesCorrect(w, g)
    ensures Later(w, g, g', {}) && forall p :: p in w.faulty ==> Ballot(w, kind, p, round, value).Signable() in g'.signed
  {
    var order := Listing(w.faulty);
    var msgs := Ballots(w, kind, order, round, value);
    forall m | m in msgs ensures m.from !in g.nodes {
      var i :| 0 <= i < |msgs| && msgs[i] == m;
      assert order[i] in order;
    }
    g' := SignAll(w, g, msgs);
    forall p | p in w.faulty ensures Ballot(w, kind, p, round, value).Signable() in g'.signed {
      var i :| 0 <= i < |order| && order[i] == p;
      assert msgs[i] in msgs;
    }
  }

  /** The correct nodes on the panel have voted, and so have the faulty ones. */
  lemma PanelVoted(w: World, signed: set<Payload>, kind: Kind, panel: seq<int>, round: int, value: string, members: set<int>)
    requires IsPanel(w, panel) && forall p :: p in panel ==> p in members || p in w.faulty
    requires forall p :: p in members || p in w.faulty ==> Ballot(w, kind, p, round, value).Signable() in signed
    ensures AllVoted(w, signed, kind, panel, round, value)
  {
  }

  /** All correct nodes go from one stage to another in which they vote; the faulty validators vote with them. */
  lemma AllVote(pl: Plan, g: Global, members: set<int>, st: Stage, st': Stage, m: Message, kind: Kind, panel: seq<int>, round: int, value: string)
    returns (g': Global)
    requires pl.Ok() && Reachable(pl.w, g) && NodesCorrect(pl.w, g) && AllStanding(pl, g, members, st) && MayAdvance(pl, g.signed, st, st', m)
    requires IsPanel(pl.w, panel) && forall p :: p in panel ==> p in members || p in pl.w.faulty
    requires (st' == GotA && kind == Prepare && round == 1 && value == "A") || (st' == HasA && kind == Commit && round == 1 && value == "A")
          || (st' == GotB && kind == Prepare && round == pl.round && value == "B") || (st' == HasB && kind == Commit && round == pl.round && value == "B")
    ensures Later(pl.w, g, g', members) && AllStanding(pl, g', members, st') && AllVoted(pl.w, g'.signed, kind, panel, round, value)
  {
    var g1 := AllAdvance(pl, g, members, st, st', m);
    g' := FaultyVote(pl.w, g1, kind, round, value);
    forall p | p in members ensures Ballot(pl.w, kind, p, round, value).Signable() in g'.signed {
      assert Said(pl, g1.signed, p, st');
    }
    PanelVoted(pl.w, g'.signed, kind, panel, round, value, members);
    StillStanding(pl, g1, g', {}, members, st');
    LaterTwice(pl.w, g, g1, g', members, {});
    assert members + {} == members;
  }

  lemma RoundOne(pl: Plan) returns (g: Global)
    requires pl.Ok() && pl.w.c.n > 0
    ensures Reachable(pl.w, g) && NodesCorrect(pl.w, g) && AllStanding(pl, g, CorrectOnes(pl.w), HasA)
    ensures AllVoted(pl.w, g.signed, Prepare, pl.panel, 1, "A") && AllVoted(pl.w, g.signed, Commit, pl.panel, 1, "A")
  {
    var correct := CorrectOnes(pl.w);
    forall p | p in pl.panel ensures p in correct || p in pl.w.faulty {
      var i :| 0 <= i < |pl.panel| && pl.panel[i] == p;
    }
    var g0 := ProposeA(pl);
    var g1 := AllVote(pl, g0, correct, Fresh, GotA, FirstProposal(pl.w), Prepare, pl.panel, 1, "A");
    g := AllVote(pl, g1, correct, GotA, HasA, FirstProposal(pl.w), Commit, pl.panel, 1, "A");
  }

  // ---------- the tie ----------

  lemma {:induction false} AllTimeOut(pl: Plan, g: Global, members: set<int>, round: int) returns (g': Global)
    requires pl.Ok() && Reachable(pl.w, g) && AllStanding(pl, g, members, HasA) && round >= 2
    ensures Later(pl.w, g, g', members) && AllStanding(pl, g', members, In(round)) && AllSaid(pl, g', members, In(round))
    decreases round
  {
    var none := FirstProposal(pl.w);
    if round == 2 {
      g' := AllAdvance(pl, g, members, HasA, In(2), none);
    } else {
      var g1 := AllTimeOut(pl, g, members, round - 1);
      g' := AllAdvance(pl, g1, members, In(round - 1), In(round), none);
      LaterTwice(pl.w, g, g1, g', members, members);
      assert members + members == members;
    }
  }

  /** The faulty leader's own claim: "B" in round 1, without proof. */
  function FalseClaim(pl: Plan, bad: int): Message {
    Message(RoundChange, bad, pl.w.c.instance, pl.round, "", 1, "B", [])
  }

  ghost function Claims(pl: Plan, others: set<int>, bad: int): map<int, Message> {
    map p | p in others + {bad} :: if p == bad then FalseClaim(pl, bad) else Claim(pl, p, pl.round)
  }

  function TiedProposal(pl: Plan, bad: int, list: seq<Message>): Message {
    Message(PrePrepare, bad, pl.w.c.instance, pl.round, "B", NO_PREPARED_ROUND, NO_PREPARED_VALUE, list)
  }

  lemma ClaimsListed(pl: Plan, others: set<int>, bad: int) returns (list: seq<Message>)
    ensures IsListing(list, Claims(pl, others, bad)) && QrcOf(list) == Claims(pl, others, bad)
  {
    var book := Claims(pl, others, bad);
    assert book.Keys == others + {bad};
    list := BookListed(book);
    ListingRoundTrip(list, book);
  }

  lemma BookListed(book: map<int, Message>) returns (list: seq<Message>)
    requires FiledBySender(book)
    ensures IsListing(list, book)
  {
    var order := Listing(book.Keys);
    ListingSize(order, book.Keys);
    list := seq(|order|, i requires 0 <= i < |order| => assert order[i] in order; book[order[i]]);
    assert |book| == |book.Keys|;
    forall k | k in book ensures book[k] in list {
      var i :| 0 <= i < |order| && order[i] == k;
      assert list[i] == book[k];
    }
    forall x | x in list ensures x.from in book && book[x.from] == x {
      var i :| 0 <= i < |list| && list[i] == x;
      assert order[i] in order;
    }
  }

  lemma ClaimsTied(pl: Plan, others: set<int>, bad: int, o: int)
    requires pl.Ok() && bad !in others && o in others
    ensures IsHighestPrepared(Claims(pl, others, bad), Found(1, "A")) && IsHighestPrepared(Claims(pl, others, bad), Found(1, "B"))
  {
    var qrc := Claims(pl, others, bad);
    assert TopClaim(qrc, o) && TopClaim(qrc, bad);
  }

  lemma ClaimsValid(pl: Plan, signed: set<Payload>, others: set<int>, bad: int)
    requires pl.Ok() && 0 <= bad < pl.w.c.n && others <= Members(pl.w.c.n) && |others + {bad}| >= QuorumSize(pl.w.c.n)
    requires FalseClaim(pl, bad).Signable() in signed && forall p :: p in others ==> Claim(pl, p, pl.round).Signable() in signed
    ensures IsQrc(Claims(pl, others, bad), pl.w.c.instance, pl.round, pl.w.c.n, signed)
  {
    ShortIsValid("A");
    ShortIsValid("B");
    var qrc := Claims(pl, others, bad);
    assert qrc.Keys == others + {bad} && |qrc| == |qrc.Keys|;
  }

  lemma ClaimsSupportA(pl: Plan, signed: set<Payload>, others: set<int>, bad: int, o: int)
    requires pl.Ok() && bad !in others && o in others && AllVoted(pl.w, signed, Prepare, pl.panel, 1, "A")
    ensures HasPrepareQuorum(Claims(pl, others, bad), pl.w.c.instance, 1, "A", pl.w.c.n, signed)
  {
    var qrc, ids, list := Claims(pl, others, bad), (set p | p in pl.panel), Ballots(pl.w, Prepare, pl.panel, 1, "A");
    ListingSize(pl.panel, ids);
    forall p | p in ids ensures p in Supporters(qrc, pl.w.c.instance, 1, "A", pl.w.c.n, signed) {
      var i :| 0 <= i < |pl.panel| && pl.panel[i] == p;
      BallotValid(pl.w, signed, pl.panel, i, 1, "A");
      assert list[i] in list && qrc[o].justification == list;
      assert p in SendersIn(qrc[o].justification, pl.w.c.instance, 1, "A", pl.w.c.n, signed);
    }
    SubsetSize(ids, Supporters(qrc, pl.w.c.instance, 1, "A", pl.w.c.n, signed));
  }

  /** The faulty leader signs its claim and its proposal, which every walk order may let through. */
  lemma SignTied(pl: Plan, g: Global, others: set<int>, bad: int, o: int) returns (g': Global, m: Message)
    requires pl.Ok() && Reachable(pl.w, g) && bad !in g.nodes && bad !in others && o in others && 0 <= bad < pl.w.c.n
    requires bad == Leader(pl.w.c.instance, pl.round, pl.w.c.n) && others <= Members(pl.w.c.n) && |others + {bad}| >= QuorumSize(pl.w.c.n)
    requires AllSaid(pl, g, others, In(pl.round)) && AllVoted(pl.w, g.signed, Prepare, pl.panel, 1, "A")
    ensures Later(pl.w, g, g', {}) && Acceptable(pl.w, g'.signed, m, pl.round, "B")
  {
    var list := ClaimsListed(pl, others, bad);
    m := TiedProposal(pl, bad, list);
    var g1 := SignOne(pl.w, g, FalseClaim(pl, bad));
    g' := SignOne(pl.w, g1, m);
    LaterTwice(pl.w, g, g1, g', {}, {});
    forall p | p in others ensures Claim(pl, p, pl.round).Signable() in g'.signed {
      assert Said(pl, g.signed, p, In(pl.round));
    }
    TiedAcceptable(pl, g'.signed, others, bad, o, list);
  }

  lemma TiedAcceptable(pl: Plan, signed: set<Payload>, others: set<int>, bad: int, o: int, list: seq<Message>)
    requires pl.Ok() && bad !in others && o in others && 0 <= bad < pl.w.c.n && QrcOf(list) == Claims(pl, others, bad)
    requires bad == Leader(pl.w.c.instance, pl.round, pl.w.c.n) && others <= Members(pl.w.c.n) && |others + {bad}| >= QuorumSize(pl.w.c.n)
    requires TiedProposal(pl, bad, list).Signable() in signed && FalseClaim(pl, bad).Signable() in signed
    requires (forall p :: p in others ==> Claim(pl, p, pl.round).Signable() in signed) && AllVoted(pl.w, signed, Prepare, pl.panel, 1, "A")
    ensures Acceptable(pl.w, signed, TiedProposal(pl, bad, list), pl.round, "B")
  {
    ClaimsValid(pl, signed, others, bad);
    ClaimsTied(pl, others, bad, o);
    ClaimsSupportA(pl, signed, others, bad, o);
    ShortIsValid("B");
  }

  // ---------- the run ----------

  /** What the run needs: `d` decides "A" and is on neither side of the later votes; `bad` leads the later round. */
  ghost predicate Arranged(pl: Plan, d: int, bad: int) {
    && pl.Ok() && pl.w.WellFormed() && pl.w.Correct(d) && bad in pl.w.faulty && 0 <= bad < pl.w.c.n
    && bad == Leader(pl.w.c.instance, pl.round, pl.w.c.n) && forall p :: p in pl.second ==> p != d
  }

  lemma EnoughOthers(pl: Plan, d: int, bad: int) returns (o: int)
    requires Arranged(pl, d, bad)
    ensures var others := CorrectOnes(pl.w) - {d}; o in others && |others + {bad}| >= QuorumSize(pl.w.c.n)
  {
    QuorumArithmetic(pl.w.c.n);
    var n, others := pl.w.c.n, CorrectOnes(pl.w) - {d};
    var inside := pl.w.faulty * Members(n);
    SubsetSize(inside, pl.w.faulty);
    assert |Members(n) - inside| == n - |inside| && Members(n) - inside == CorrectOnes(pl.w);
    assert |others| == |CorrectOnes(pl.w)| - 1;
    assert |others + {bad}| == |others| + 1;
    assert bad in inside;
    NonEmpty(others);
    o :| o in others;
  }

  /** The first decision, and the others at the start of the later round. */
  lemma DecideA(pl: Plan, d: int, bad: int) returns (g: Global)
    requires Arranged(pl, d, bad)
    ensures Reachable(pl.w, g) && NodesCorrect(pl.w, g) && AllStanding(pl, g, CorrectOnes(pl.w) - {d}, HasA)
    ensures AllVoted(pl.w, g.signed, Prepare, pl.panel, 1, "A") && d in g.nodes && g.nodes[d].decided && g.nodes[d].decisionValue == "A"
  {
    var g1 := RoundOne(pl);
    assert Standing(pl, g1, d, HasA);
    g := DecideAt(pl.w, g1, d, bad, pl.panel, 1, "A");
    PartStanding(pl, g1, CorrectOnes(pl.w), CorrectOnes(pl.w) - {d}, HasA);
    StillStanding(pl, g1, g, {d}, CorrectOnes(pl.w) - {d}, HasA);
  }

  /** The others accept "B" and prepare it. */
  lemma PrepareB(pl: Plan, g: Global, d: int, bad: int, o: int) returns (g': Global)
    requires Arranged(pl, d, bad) && Reachable(pl.w, g) && NodesCorrect(pl.w, g)
    requires var others := CorrectOnes(pl.w) - {d};
             AllStanding(pl, g, others, HasA) && o in others && |others + {bad}| >= QuorumSize(pl.w.c.n)
    requires AllVoted(pl.w, g.signed, Prepare, pl.panel, 1, "A")
    ensures var others := CorrectOnes(pl.w) - {d};
            Later(pl.w, g, g', others) && AllStanding(pl, g', others, HasB) && AllVoted(pl.w, g'.signed, Commit, pl.second, pl.round, "B")
  {
    var others := CorrectOnes(pl.w) - {d};
    var g2, m := ReachTie(pl, g, others, bad, o);
    g' := VoteB(pl, g2, d, others, m);
    LaterTwice(pl.w, g, g2, g', others, others);
    assert others + others == others;
  }

  lemma ReachTie(pl: Plan, g: Global, others: set<int>, bad: int, o: int) returns (g': Global, m: Message)
    requires pl.Ok() && Reachable(pl.w, g) && bad !in g.nodes && bad !in others && o in others && 0 <= bad < pl.w.c.n
    requires bad == Leader(pl.w.c.instance, pl.round, pl.w.c.n) && others <= Members(pl.w.c.n) && |others + {bad}| >= QuorumSize(pl.w.c.n)
    requires AllStanding(pl, g, others, HasA) && AllVoted(pl.w, g.signed, Prepare, pl.panel, 1, "A")
    ensures Later(pl.w, g, g', others) && AllStanding(pl, g', others, In(pl.round)) && Acceptable(pl.w, g'.signed, m, pl.round, "B")
  {
    var g1 := AllTimeOut(pl, g, others, pl.round);
    g', m := SignTied(pl, g1, others, bad, o);
    StillStanding(pl, g1, g', {}, others, In(pl.round));
    LaterTwice(pl.w, g, g1, g', others, {});
    assert others + {} == others;
  }

  lemma VoteB(pl: Plan, g: Global, d: int, others: set<int>, m: Message) returns (g': Global)
    requires pl.Ok() && others == CorrectOnes(pl.w) - {d} && (forall p :: p in pl.second ==> p != d)
    requires Reachable(pl.w, g) && NodesCorrect(pl.w, g) && AllStanding(pl, g, others, In(pl.round)) && Acceptable(pl.w, g.signed, m, pl.round, "B")
    ensures Later(pl.w, g, g', others) && AllStanding(pl, g', others, HasB) && AllVoted(pl.w, g'.signed, Commit, pl.second, pl.round, "B")
  {
    forall p | p in pl.second ensures p in others || p in pl.w.faulty {
      var i :| 0 <= i < |pl.second| && pl.second[i] == p;
    }
    var g1 := AllVote(pl, g, others, In(pl.round), GotB, m, Prepare, pl.second, pl.round, "B");
    g' := AllVote(pl, g1, others, GotB, HasB, m, Commit, pl.second, pl.round, "B");
    LaterTwice(pl.w, g, g1, g', others, others);
    assert others + others == others;
  }

  lemma WholeRun(pl: Plan, d: int, bad: int) returns (g: Global, x: int)
    requires Arranged(pl, d, bad)
    ensures Reachable(pl.w, g) && pl.w.Correct(x) && d in g.nodes && x in g.nodes
    ensures g.nodes[d].decided && g.nodes[d].decisionValue == "A" && g.nodes[x].decided && g.nodes[x].decisionValue == "B"
  {
    x := EnoughOthers(pl, d, bad);
    var g1 := DecideA(pl, d, bad);
    var g2 := PrepareB(pl, g1, d, bad, x);
    assert Standing(pl, g2, x, HasB);
    g := DecideAt(pl.w, g2, x, bad, pl.second, pl.round, "B");
  }

  /** A round from 2 on that a given validator leads. */
  lemma LedBy(w: World, bad: int) returns (round: int)
    requires 0 <= bad < w.c.n
    ensures round >= 2 && Leader(w.c.instance, round, w.c.n) == bad
  {
    var n, i := w.c.n, w.c.instance;
    round := 2 + (bad - i) % n;
    LeadsBack(i, bad, n);
  }

  lemma LeadsBack(i: int, bad: int, n: nat)
    requires 0 <= bad < n
    ensures (i + (bad - i) % n) % n == bad
  {
    var k := (bad - i) / n;
    assert bad - i == n * k + (bad - i) % n;
    SameResidue(bad, k, n);
    assert i + (bad - i) % n == bad - n * k;
  }

  lemma SameResidue(a: int, k: int, n: nat)
    requires 0 <= a < n
    ensures (a - n * k) % n == a
  {
    var x := a - n * k;
    var q, r := x / n, x % n;
    assert x == n * q + r;
    Factored(n, q, k);
    OnlyZero(n, q + k, a - r);
  }

  lemma Factored(n: int, q: int, k: int)
    ensures n * (q + k) == n * q + n * k
  {
  }

  lemma OnlyZero(n: int, t: int, difference: int)
    requires n * t == difference && -n < difference < n
    ensures t == 0
  {
    if t >= 1 {
      AtLeastOnce(n, t);
    } else if t <= -1 {
      AtLeastOnce(n, -t);
    }
  }

  lemma AtLeastOnce(n: int, t: int)
    requires n >= 0 && t >= 1
    ensures n * t >= n && n * (-t) <= -n
  {
  }

  /** With a faulty validator among at least four: a run of the program's own steps in which two correct nodes decide
      different values. */
  lemma Disagreement(w: World, bad: int) returns (events: seq<Event>, states: seq<Global>, d: int, x: int)
    requires w.WellFormed() && bad in w.faulty && 0 <= bad < w.c.n
    ensures Run(w, events, states) && w.Correct(d) && w.Correct(x)
    ensures var g := states[|events|];
            && d in g.nodes && x in g.nodes && g.nodes[d].decided && g.nodes[x].decided
            && g.nodes[d].decisionValue == "A" && g.nodes[x].decisionValue == "B"
  {
    var pl;
    pl, d := MakePlan(w, bad);
    var g;
    g, x := WholeRun(pl, d, bad);
    events, states :| EndsIn(w, events, states, g);
  }

  lemma MakePlan(w: World, bad: int) returns (pl: Plan, d: int)
    requires w.WellFormed() && bad in w.faulty && 0 <= bad < w.c.n
    ensures Arranged(pl, d, bad) && pl.w == w
  {
    var n := w.c.n;
    QuorumArithmetic(n);
    SubsetSize({bad}, w.faulty);
    d := CorrectMember(Members(n), w.faulty);
    var panel := PanelOf(w, Members(n));
    var second := PanelOf(w, Members(n) - {d});
    var round := LedBy(w, bad);
    pl := Plan(w, panel, second, round);
  }

  // ---------- the exact condition ----------

  ghost predicate DecidedOn(g: Global, p: int, v: string) {
    p in g.nodes && g.nodes[p].decided && g.nodes[p].decisionValue == v
  }

  /** No two correct nodes ever decide different values. */
  ghost predicate AlwaysAgree(w: World) {
    forall events: seq<Event>, states: seq<Global>, i: nat, j: nat, p: int, q: int, v: string, u: string ::
      Run(w, events, states) && i <= j < |states| && DecidedOn(states[i], p, v) && DecidedOn(states[j], q, u) ==> v == u
  }

  ghost predicate NobodyFaulty(w: World) {
    forall p :: 0 <= p < w.c.n ==> p !in w.faulty
  }

  // ---------- without faulty validators ----------

  /** Everything signed in the name of a correct node was sent by it. */
  ghost predicate SignedWasSent(g: Global) {
    forall payload :: payload in g.signed && payload.head.from in g.nodes ==> WasSent(g, payload)
  }

  ghost predicate WasSent(g: Global, payload: Payload) {
    exists m :: m in g.sent && m.Signable() == payload
  }

  lemma {:induction false} SentBacksSigned(w: World, events: seq<Event>, states: seq<Global>, i: nat)
    requires Run(w, events, states) && i <= |events|
    ensures SignedWasSent(states[i])
  {
    if i > 0 {
      SentBacksSigned(w, events, states, i - 1);
      var g, e, g' := states[i - 1], events[i - 1], states[i];
      assert Step(w, g, e, g');
      forall payload | payload in g'.signed && payload.head.from in g'.nodes ensures WasSent(g', payload) {
        if payload in g.signed {
          assert WasSent(g, payload);
          var m :| m in g.sent && m.Signable() == payload;
          assert m in g'.sent;
        } else {
          var m :| m in e.out && m.Signable() == payload;
          assert m in g'.sent;
        }
      }
    }
  }

  /** A claim in the name of a correct node is true. */
  lemma ClaimIsTrue(w: World, g: Global, m: Message, round: int)
    requires Inv(w, g) && SignedWasSent(g) && w.Correct(m.from) && RoundChangeFor(m, w.c.instance, round, w.c.n, g.signed) && m.ClaimsPrepared()
    ensures Quorum(w, g.signed, Prepare, m.preparedRound, m.preparedValue)
  {
    assert WasSent(g, m.Signable());
    var sent :| sent in g.sent && sent.Signable() == m.Signable();
    assert sent.Signable().head == sent.Head() && m.Signable().head == m.Head();
    assert SentOk(w, g.signed, sent);
    var senders := SendersIn(sent.justification, w.c.instance, m.preparedRound, m.preparedValue, w.c.n, g.signed);
    forall p | p in senders ensures p in Signers(w, g.signed, Prepare, m.preparedRound, m.preparedValue) {
      var x :| x in sent.justification && Supports(x, w.c.instance, m.preparedRound, m.preparedValue, w.c.n, g.signed) && x.from == p;
      assert x.Signable().head == x.Head() && x.Head() in Heads(g.signed);
    }
    SubsetSize(senders, Signers(w, g.signed, Prepare, m.preparedRound, m.preparedValue));
  }

  lemma TopClaimIsTrue(w: World, g: Global, qrc: map<int, Message>, round: int, k: int)
    requires NobodyFaulty(w) && Inv(w, g) && SignedWasSent(g) && IsQrc(qrc, w.c.instance, round, w.c.n, g.signed) && TopClaim(qrc, k)
    ensures Quorum(w, g.signed, Prepare, qrc[k].preparedRound, qrc[k].preparedValue)
  {
    assert RoundChangeFor(qrc[k], w.c.instance, round, w.c.n, g.signed);
    ClaimIsTrue(w, g, qrc[k], round);
  }

  lemma NoFaultsTieFree(w: World, g: Global, qrc: map<int, Message>, round: int)
    requires w.WellFormed() && NobodyFaulty(w) && Inv(w, g) && SignedWasSent(g) && IsQrc(qrc, w.c.instance, round, w.c.n, g.signed)
    ensures TieFree(qrc)
  {
    forall i, j | TopClaim(qrc, i) && TopClaim(qrc, j) ensures qrc[i].preparedValue == qrc[j].preparedValue {
      TopClaimIsTrue(w, g, qrc, round, i);
      TopClaimIsTrue(w, g, qrc, round, j);
      assert qrc[i].preparedRound == qrc[j].preparedRound;
      PrepareQuorumUnique(w, g, qrc[i].preparedRound, qrc[i].preparedValue, qrc[j].preparedValue);
    }
  }

  /** Every run without faulty validators is calm. */
  lemma NoFaultsCalm(w: World, events: seq<Event>, states: seq<Global>)
    requires w.WellFormed() && NobodyFaulty(w) && Run(w, events, states)
    ensures CalmRun(w, events, states)
  {
    forall i | 0 <= i < |events| ensures Calm(w, states[i], events[i]) {
      var g, e := states[i], events[i];
      assert Step(w, g, e, states[i + 1]);
      if e.Deliver? && e.m.kind == PrePrepare && e.out != [] {
        RunKeeps(w, events, states, i);
        SentBacksSigned(w, events, states, i);
        if e.m.round != 1 {
          NoFaultsTieFree(w, g, QrcOf(e.m.justification), e.m.round);
          TieFreeIsOneWalk(e.m, w.c.n, g.signed);
        }
      }
    }
  }

  /** In a system of n validators, at most (n-1)/3 of them faulty, all runs agree if and only if none is faulty. */
  lemma AgreementExactly(w: World)
    requires w.WellFormed()
    ensures AlwaysAgree(w) <==> NobodyFaulty(w)
  {
    if NobodyFaulty(w) {
      forall events: seq<Event>, states: seq<Global>, i: nat, j: nat, p: int, q: int, v: string, u: string |
        Run(w, events, states) && i <= j < |states| && DecidedOn(states[i], p, v) && DecidedOn(states[j], q, u)
        ensures v == u
      {
        NoFaultsCalm(w, events, states);
        RunKeeps(w, events, states, i);
        RunKeeps(w, events, states, j);
        Agreement(w, events, states, i, j, p, q);
      }
    } else {
      var bad :| 0 <= bad < w.c.n && bad in w.faulty;
      var events, states, d, x := Disagreement(w, bad);
      assert DecidedOn(states[|events|], d, "A") && DecidedOn(states[|events|], x, "B") && "A"[0] != "B"[0];
    }
  }
}
