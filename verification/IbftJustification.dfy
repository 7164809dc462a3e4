/** Justification of ROUND-CHANGE quorums and PRE-PREPAREs.

    The program walks Go maps, whose order is chosen afresh by every `range`. Each walk is
    a method that picks the entries in any order. `May...` says that some orders give the
    answer true, `Must...` that all orders do. */
module IbftJustification {
  import opened IbftMessages
  import opened Quorums

  datatype Highest = NotFound | Found(round: int, value: string)

  /** Entry `k` is a prepared claim of maximal round. */
  ghost predicate TopClaim(qrc: map<int, Message>, k: int) {
    && k in qrc
    && qrc[k].ClaimsPrepared()
    && forall j :: j in qrc && qrc[j].ClaimsPrepared() ==> qrc[j].preparedRound <= qrc[k].preparedRound
  }

  ghost predicate IsHighestPrepared(qrc: map<int, Message>, hp: Highest) {
    match hp
    case NotFound => forall k :: k in qrc ==> !qrc[k].ClaimsPrepared()
    case Found(r, v) => exists k :: TopClaim(qrc, k) && qrc[k].preparedRound == r && qrc[k].preparedValue == v
  }

  /** All top claims name the same value: what a caller checks to rule out ties. */
  ghost predicate TieFree(qrc: map<int, Message>) {
    forall i, j :: TopClaim(qrc, i) && TopClaim(qrc, j) ==> qrc[i].preparedValue == qrc[j].preparedValue
  }

  method HighestPrepared(qrc: map<int, Message>) returns (hp: Highest)
    ensures IsHighestPrepared(qrc, hp)
  {
    hp := NotFound;
    var rest := qrc.Keys;
    while rest != {}
      invariant rest <= qrc.Keys
      invariant hp.NotFound? ==> forall k :: k in qrc && k !in rest ==> !qrc[k].ClaimsPrepared()
      invariant hp.Found? ==> exists k :: k in qrc && k !in rest && qrc[k].ClaimsPrepared()
                                         && qrc[k].preparedRound == hp.round && qrc[k].preparedValue == hp.value
      invariant hp.Found? ==> forall k :: k in qrc && k !in rest && qrc[k].ClaimsPrepared()
                                         ==> qrc[k].preparedRound <= hp.round
      decreases rest
    {
      NonEmpty(rest);
      var k :| k in rest;
      rest := rest - {k};
      var m := qrc[k];
      if m.ClaimsPrepared() {
        if hp.NotFound? || m.preparedRound > hp.round {
          hp := Found(m.preparedRound, m.preparedValue);
        }
      }
    }
    if hp.Found? {
      var k :| k in qrc && qrc[k].ClaimsPrepared() && qrc[k].preparedRound == hp.round && qrc[k].preparedValue == hp.value;
      assert TopClaim(qrc, k);
    }
  }

  // ---------- the order of a map walk ----------

  /** What the loop of HighestPrepared computes when it meets the messages in this order. */
  ghost function Scan(order: seq<Message>): Highest {
    if order == [] then NotFound
    else
      var before, m := Scan(order[..|order| - 1]), order[|order| - 1];
      if m.ClaimsPrepared() && (before.NotFound? || m.preparedRound > before.round)
      then Found(m.preparedRound, m.preparedValue) else before
  }

  /** Every value that a walk may yield is yielded by some order of the entries: it is enough
      that the entry in question comes first. */
  lemma {:induction false} FirstTopClaimWins(qrc: map<int, Message>, k: int, order: seq<Message>)
    requires TopClaim(qrc, k)
    requires |order| > 0 && order[0] == qrc[k]
    requires forall i :: 0 <= i < |order| ==> exists j :: j in qrc && qrc[j] == order[i]
    ensures Scan(order) == Found(qrc[k].preparedRound, qrc[k].preparedValue)
  {
    if |order| > 1 {
      FirstTopClaimWins(qrc, k, order[..|order| - 1]);
      var j :| j in qrc && qrc[j] == order[|order| - 1];
    } else {
      assert Scan(order[..0]) == NotFound;
    }
  }

  // ---------- ROUND-CHANGE quorums ----------

  /** `p` is a valid PREPARE for (instance, round, value). */
  predicate Supports(p: Message, instance: int, round: int, value: string, n: nat, signed: set<Payload>) {
    IsValidMessage(p, n, signed) && p.kind == Prepare && p.instance == instance && p.round == round && p.value == value
  }

  /** The senders of the supporting PREPAREs in a list of messages. */
  function SendersIn(list: seq<Message>, instance: int, round: int, value: string, n: nat, signed: set<Payload>): set<int> {
    set p | p in list && Supports(p, instance, round, value, n, signed) :: p.from
  }

  /** The validators whose supporting PREPAREs are attached to some message of `qrc`. */
  ghost function Supporters(qrc: map<int, Message>, instance: int, round: int, value: string, n: nat,
                            signed: set<Payload>): set<int>
  {
    set k, s | k in qrc && s in SendersIn(qrc[k].justification, instance, round, value, n, signed) :: s
  }

  ghost predicate HasPrepareQuorum(qrc: map<int, Message>, instance: int, round: int, value: string, n: nat,
                                   signed: set<Payload>)
  {
    |Supporters(qrc, instance, round, value, n, signed)| >= QuorumSize(n)
  }

  method CollectSenders(list: seq<Message>, instance: int, round: int, value: string, n: nat, signed: set<Payload>)
    returns (senders: set<int>)
    ensures senders == SendersIn(list, instance, round, value, n, signed)
  {
    senders := {};
    for i := 0 to |list|
      invariant senders == SendersIn(list[..i], instance, round, value, n, signed)
    {
      assert list[..i + 1] == list[..i] + [list[i]];
      if Supports(list[i], instance, round, value, n, signed) {
        senders := senders + {list[i].from};
      }
    }
    assert list[..|list|] == list;
  }

  method CountPrepareQuorum(qrc: map<int, Message>, instance: int, round: int, value: string, n: nat, signed: set<Payload>)
    returns (ok: bool)
    ensures ok == HasPrepareQuorum(qrc, instance, round, value, n, signed)
  {
    var senders: set<int> := {};
    var rest := qrc.Keys;
    while rest != {}
      invariant rest <= qrc.Keys
      invariant forall k :: k in qrc && k !in rest
                            ==> SendersIn(qrc[k].justification, instance, round, value, n, signed) <= senders
      invariant senders <= Supporters(qrc, instance, round, value, n, signed)
      decreases rest
    {
      NonEmpty(rest);
      var k :| k in rest;
      var found := CollectSenders(qrc[k].justification, instance, round, value, n, signed);
      senders := senders + found;
      rest := rest - {k};
    }
    assert senders == Supporters(qrc, instance, round, value, n, signed);
    ok := |senders| >= QuorumSize(n);
  }

  predicate RoundChangeFor(m: Message, instance: int, round: int, n: nat, signed: set<Payload>) {
    && IsValidMessage(m, n, signed)
    && m.kind == RoundChange
    && m.instance == instance && m.round == round
    && (m.preparedRound != NO_PREPARED_ROUND ==> m.preparedRound < m.round)
    && (m.preparedRound != NO_PREPARED_ROUND <==> m.preparedValue != NO_PREPARED_VALUE)
  }

  /** A quorum of valid ROUND-CHANGEs for (instance, round). */
  ghost predicate IsQrc(qrc: map<int, Message>, instance: int, round: int, n: nat, signed: set<Payload>) {
    && |qrc| >= QuorumSize(n)
    && forall k :: k in qrc ==> RoundChangeFor(qrc[k], instance, round, n, signed)
  }

  ghost predicate MayJustifyRoundChange(qrc: map<int, Message>, instance: int, round: int, n: nat, signed: set<Payload>) {
    && IsQrc(qrc, instance, round, n, signed)
    && exists hp :: IsHighestPrepared(qrc, hp)
                    && (hp.Found? ==> HasPrepareQuorum(qrc, instance, hp.round, hp.value, n, signed))
  }

  ghost predicate MustJustifyRoundChange(qrc: map<int, Message>, instance: int, round: int, n: nat, signed: set<Payload>) {
    && IsQrc(qrc, instance, round, n, signed)
    && forall hp :: IsHighestPrepared(qrc, hp) && hp.Found?
                    ==> HasPrepareQuorum(qrc, instance, hp.round, hp.value, n, signed)
  }

  method JustifyRoundChange(qrc: map<int, Message>, instance: int, round: int, n: nat, signed: set<Payload>)
    returns (ok: bool)
    ensures ok ==> MayJustifyRoundChange(qrc, instance, round, n, signed)
    ensures MustJustifyRoundChange(qrc, instance, round, n, signed) ==> ok
  {
    if |qrc| < QuorumSize(n) {
      return false;
    }
    var noneClaimed := true;
    var rest := qrc.Keys;
    while rest != {}
      invariant rest <= qrc.Keys
      invariant forall k :: k in qrc && k !in rest ==> RoundChangeFor(qrc[k], instance, round, n, signed)
      invariant noneClaimed <==> forall k :: k in qrc && k !in rest ==> !qrc[k].ClaimsPrepared()
      decreases rest
    {
      NonEmpty(rest);
      var k :| k in rest;
      if !RoundChangeFor(qrc[k], instance, round, n, signed) {
        return false;
      }
      if qrc[k].ClaimsPrepared() {
        noneClaimed := false;
      }
      rest := rest - {k};
    }
    if noneClaimed {
      assert IsHighestPrepared(qrc, NotFound);
      return true;
    }
    var hp := HighestPrepared(qrc);
    ok := CountPrepareQuorum(qrc, instance, hp.round, hp.value, n, signed);
  }

  // ---------- PRE-PREPAREs ----------

  /** The ROUND-CHANGEs of a justification, the last one winning for each sender. */
  function QrcOf(justification: seq<Message>): (qrc: map<int, Message>)
    ensures forall k :: k in qrc ==> qrc[k] in justification && qrc[k].from == k && qrc[k].kind == RoundChange
  {
    if justification == [] then map[]
    else
      var m := justification[|justification| - 1];
      var before := QrcOf(justification[..|justification| - 1]);
      if m.kind == RoundChange then before[m.from := m] else before
  }

  method RoundChangesFrom(justification: seq<Message>) returns (qrc: map<int, Message>)
    ensures qrc == QrcOf(justification)
  {
    qrc := map[];
    for i := 0 to |justification|
      invariant qrc == QrcOf(justification[..i])
    {
      assert justification[..i + 1][..i] == justification[..i];
      if justification[i].kind == RoundChange {
        qrc := qrc[justification[i].from := justification[i]];
      }
    }
    assert justification[..|justification|] == justification;
  }

  ghost predicate MayJustifyPrePrepare(m: Message, n: nat, signed: set<Payload>) {
    && m.kind == PrePrepare
    && (m.round == 1
        || var qrc := QrcOf(m.justification);
           && MayJustifyRoundChange(qrc, m.instance, m.round, n, signed)
           && exists hp :: IsHighestPrepared(qrc, hp) && (hp.Found? ==> m.value == hp.value))
  }

  ghost predicate MustJustifyPrePrepare(m: Message, n: nat, signed: set<Payload>) {
    && m.kind == PrePrepare
    && (m.round == 1
        || var qrc := QrcOf(m.justification);
           && MustJustifyRoundChange(qrc, m.instance, m.round, n, signed)
           && forall hp :: IsHighestPrepared(qrc, hp) && hp.Found? ==> m.value == hp.value)
  }

  /** One walk of the map passes both checks: the claim it yields has a prepare quorum and is the proposed
      value. The code walks twice, so it also accepts what no single walk accepts. */
  ghost predicate OneWalkAccepts(m: Message, n: nat, signed: set<Payload>) {
    && m.kind == PrePrepare
    && (m.round == 1 ||
        var qrc := QrcOf(m.justification);
        && IsQrc(qrc, m.instance, m.round, n, signed)
        && exists hp :: && IsHighestPrepared(qrc, hp)
                        && (hp.Found? ==> HasPrepareQuorum(qrc, m.instance, hp.round, hp.value, n, signed) && m.value == hp.value))
  }

  /** The two walks of HighestPrepared, one inside JustifyRoundChange and one here, need not
      agree on the order of the map. */
  method JustifyPrePrepare(m: Message, n: nat, signed: set<Payload>) returns (ok: bool)
    ensures ok ==> MayJustifyPrePrepare(m, n, signed)
    ensures MustJustifyPrePrepare(m, n, signed) ==> ok
  {
    if m.kind != PrePrepare {
      return false;
    }
    if m.round == 1 {
      return true;
    }
    var qrc := RoundChangesFrom(m.justification);
    if |qrc| < QuorumSize(n) {
      return false;
    }
    var justified := JustifyRoundChange(qrc, m.instance, m.round, n, signed);
    if !justified {
      return false;
    }
    var hp := HighestPrepared(qrc);
    if hp.Found? {
      return m.value == hp.value;
    }
    return true;
  }

  lemma HighestExists(qrc: map<int, Message>) returns (hp: Highest)
    ensures IsHighestPrepared(qrc, hp)
    decreases |qrc|
  {
    if forall k :: k in qrc ==> !qrc[k].ClaimsPrepared() {
      hp := NotFound;
    } else {
      var k :| k in qrc && qrc[k].ClaimsPrepared();
      var others := qrc - {k};
      var below := HighestExists(others);
      if below.Found? && below.round > qrc[k].preparedRound {
        var j :| TopClaim(others, j) && qrc[j].preparedRound == below.round && qrc[j].preparedValue == below.value;
        forall i | i in qrc && qrc[i].ClaimsPrepared() ensures qrc[i].preparedRound <= qrc[j].preparedRound {
          if i != k { assert i in others && others[i] == qrc[i]; }
        }
        assert TopClaim(qrc, j);
        hp := below;
      } else {
        forall j | j in qrc && qrc[j].ClaimsPrepared() ensures qrc[j].preparedRound <= qrc[k].preparedRound {
          if j != k { assert j in others && others[j] == qrc[j]; }
        }
        assert TopClaim(qrc, k);
        hp := Found(qrc[k].preparedRound, qrc[k].preparedValue);
      }
    }
  }

  lemma TieFreeIsUnique(qrc: map<int, Message>, a: Highest, b: Highest)
    requires TieFree(qrc) && IsHighestPrepared(qrc, a) && IsHighestPrepared(qrc, b)
    ensures a == b
  {
    if a.Found? && b.Found? {
      var i :| TopClaim(qrc, i) && qrc[i].preparedRound == a.round && qrc[i].preparedValue == a.value;
      var j :| TopClaim(qrc, j) && qrc[j].preparedRound == b.round && qrc[j].preparedValue == b.value;
    }
  }

  /** Without a tie, whatever one order of the walks accepts every order accepts. */
  lemma TieFreeOrderIrrelevant(m: Message, n: nat, signed: set<Payload>)
    requires TieFree(QrcOf(m.justification))
    requires MayJustifyPrePrepare(m, n, signed)
    ensures MustJustifyPrePrepare(m, n, signed)
  {
    if m.round != 1 {
      var qrc := QrcOf(m.justification);
      forall a, b | IsHighestPrepared(qrc, a) && IsHighestPrepared(qrc, b) ensures a == b {
        TieFreeIsUnique(qrc, a, b);
      }
    }
  }

  /** Without a tie, the two walks are as good as one. */
  lemma TieFreeIsOneWalk(m: Message, n: nat, signed: set<Payload>)
    requires TieFree(QrcOf(m.justification)) && MayJustifyPrePrepare(m, n, signed)
    ensures OneWalkAccepts(m, n, signed)
  {
    if m.round != 1 {
      TieFreeOrderIrrelevant(m, n, signed);
      var hp := HighestExists(QrcOf(m.justification));
    }
  }

  /** With a tie under a justified quorum, each of the tied values is accepted under some order
      of the walks and refused under another. */
  lemma TieMakesOrderMatter(m: Message, n: nat, signed: set<Payload>, i: int, j: int)
    requires m.kind == PrePrepare && m.round != 1
    requires var qrc := QrcOf(m.justification);
             && MayJustifyRoundChange(qrc, m.instance, m.round, n, signed)
             && TopClaim(qrc, i) && TopClaim(qrc, j)
             && m.value == qrc[i].preparedValue != qrc[j].preparedValue
    ensures MayJustifyPrePrepare(m, n, signed) && !MustJustifyPrePrepare(m, n, signed)
  {
    var qrc := QrcOf(m.justification);
    assert IsHighestPrepared(qrc, Found(qrc[i].preparedRound, qrc[i].preparedValue));
    assert IsHighestPrepared(qrc, Found(qrc[j].preparedRound, qrc[j].preparedValue));
  }
}
