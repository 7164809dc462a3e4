/** Why commits may conflict when buffered messages are replayed without looking at the view again. Entering
    a view replays its buffered messages; a DECIDE among them moves the replica on, and a COMMIT message that
    was buffered behind it is then handled in a later view and takes the lock back. With four replicas, one of
    them faulty, correct leaders in views 2 and 3, and no message from a correct replica that it did not send,
    two correct replicas end up executing conflicting nodes. */
module HotStuffReplay {
  import opened HotStuffTree
  import opened HotStuffVotes
  import opened HotStuffCrypto
  import opened HotStuffNode
  import opened HotStuffEffects
  import opened HotStuffCalls
  import opened HotStuffRuns
  import opened HotStuffCallRuns
  import opened HotStuffSteps

  /** A command, and two different commands to be executed after it. */
  datatype Fork = Fork(base: Command, one: Command, other: Command)
  {
    const T := Digest(Genesis, base)
    const L := Digest(T, one)
    const R := Digest(T, other)
    const trunk := TreeNode(Genesis, base, T, 2)
    const left := TreeNode(T, one, L, 3)
    const right := TreeNode(T, other, R, 4)

    predicate Ok() {
      base.id != "" && one.id != "" && other.id != "" && one != other
    }
  }

  // ---------- a view led by a correct replica ----------

  /** The leader `l` and another correct replica, in the view that `l` leads. */
  ghost predicate Pair(g: Global, l: int, o: int, pl: Place, po: Place) {
    && Reachable(g) && l in g.nodes && o in g.nodes && PlaceOf(g.nodes[l]) == pl && PlaceOf(g.nodes[o]) == po
    && pl.view == po.view >= 1 && pl.id == l == Leader(4, pl.view) && po.id == o && 0 <= l < 3 && 0 <= o < 3 && l != o
  }

  ghost predicate OnlyPair(g: Global, l: int, o: int, g': Global) {
    Later(g, g') && l in g.nodes && o in g.nodes && forall q :: q in g.nodes && q != l && q != o ==> g'.nodes[q] == g.nodes[q]
  }

  lemma OnlyPairOn(g: Global, l: int, o: int, g1: Global, g2: Global)
    requires OnlyPair(g, l, o, g1) && OnlyPair(g1, l, o, g2)
    ensures OnlyPair(g, l, o, g2)
  {
  }

  lemma OnePairOn(g: Global, l: int, o: int, g1: Global, g2: Global)
    requires l != o && Moves(g, l, g1) && Moves(g1, o, g2)
    ensures OnlyPair(g, l, o, g2) && g2.nodes[l] == g1.nodes[l] && g1.nodes[o] == g.nodes[o]
  {
  }

  lemma PairThenOne(g: Global, l: int, o: int, g1: Global, g2: Global)
    requires OnlyPair(g, l, o, g1) && Moves(g1, l, g2) && l != o
    ensures OnlyPair(g, l, o, g2) && g2.nodes[o] == g1.nodes[o]
  {
  }

  function Counting(p: Place, kind: Kind): Place {
    p.(voted := p.voted + {(kind, p.view)}, counted := p.counted + {(kind, p.view)})
  }

  /** Both have voted, and so has the faulty replica: the leader announces the certificate. */
  lemma Announced2(g: Global, l: int, o: int, pl: Place, po: Place, kind: Kind, h: Hash) returns (g': Global, qc: QC)
    requires Pair(g, l, o, pl, po) && (kind == Prepare || kind == PreCommit || kind == Commit) && Proper(g.store, h)
    requires Cast(g, l, l, kind, pl.view, h) && Cast(g, o, l, kind, pl.view, h) && Cast(g, 3, l, kind, pl.view, h)
    requires (kind, pl.view) !in pl.counted
    ensures OnlyPair(g, l, o, g') && g'.store == g.store && Pair(g', l, o, pl.(counted := pl.counted + {(kind, pl.view)}), po)
    ensures IsQC(g', qc, kind, pl.view, h) && ToAll(PhaseMessage(NextKind(kind), pl.view, qc)) in g'.nodes[l].outbox
  {
    g', qc := CollectAt(g, l, pl, kind, h, l, o);
  }

  lemma PrepareBoth(g: Global, l: int, o: int, pl: Place, po: Place, node: TreeNode, justify: Option<QC>) returns (g': Global)
    requires Pair(g, l, o, pl, po) && Proper(g.store, node.hash) && ToAll(ProposalMessage(pl.view, node, justify)) in g.nodes[l].outbox
    requires ProposalOk(g, pl.lock, pl.view, node, justify) && ProposalOk(g, po.lock, pl.view, node, justify)
    requires (Prepare, pl.view) !in pl.voted && (Prepare, pl.view) !in po.voted
    ensures OnlyPair(g, l, o, g') && g'.store == g.store && Pair(g', l, o, Voting(pl, Prepare, pl.view), Voting(po, Prepare, pl.view))
    ensures Cast(g', l, l, Prepare, pl.view, node.hash) && Cast(g', o, l, Prepare, pl.view, node.hash)
  {
    var g1 := PrepareAt(g, l, pl, node, justify);
    g' := PrepareAt(g1, o, po, node, justify);
    OnePairOn(g, l, o, g1, g');
  }

  lemma PreCommitBoth(g: Global, l: int, o: int, pl: Place, po: Place, h: Hash, qc: QC) returns (g': Global)
    requires Pair(g, l, o, pl, po) && Proper(g.store, h) && ToAll(PhaseMessage(PreCommit, pl.view, qc)) in g.nodes[l].outbox
    requires IsQC(g, qc, Prepare, pl.view, h) && (PreCommit, pl.view) !in pl.voted && (PreCommit, pl.view) !in po.voted
    requires (pl.prepareQC.Some? ==> pl.prepareQC.value.view < pl.view) && (po.prepareQC.Some? ==> po.prepareQC.value.view < pl.view)
    ensures OnlyPair(g, l, o, g') && g'.store == g.store
    ensures Pair(g', l, o, Voting(pl, PreCommit, pl.view).(prepareQC := Some(qc)), Voting(po, PreCommit, pl.view).(prepareQC := Some(qc)))
    ensures Cast(g', l, l, PreCommit, pl.view, h) && Cast(g', o, l, PreCommit, pl.view, h)
  {
    var g1 := PreCommitAt(g, l, pl, h, qc);
    g' := PreCommitAt(g1, o, po, h, qc);
    OnePairOn(g, l, o, g1, g');
  }

  lemma CommitBoth(g: Global, l: int, o: int, pl: Place, po: Place, h: Hash, qc: QC) returns (g': Global)
    requires Pair(g, l, o, pl, po) && Proper(g.store, h) && ToAll(PhaseMessage(Commit, pl.view, qc)) in g.nodes[l].outbox
    requires IsQC(g, qc, PreCommit, pl.view, h) && (Commit, pl.view) !in pl.voted && (Commit, pl.view) !in po.voted
    ensures OnlyPair(g, l, o, g') && g'.store == g.store
    ensures Pair(g', l, o, Voting(pl, Commit, pl.view).(lock := Some((pl.view, h))), Voting(po, Commit, pl.view).(lock := Some((pl.view, h))))
    ensures Cast(g', l, l, Commit, pl.view, h) && Cast(g', o, l, Commit, pl.view, h)
  {
    var g1 := CommitAt(g, l, pl, h, qc);
    g' := CommitAt(g1, o, po, h, qc);
    OnePairOn(g, l, o, g1, g');
  }

  lemma PrepareRound(g: Global, l: int, o: int, pl: Place, po: Place, node: TreeNode, justify: Option<QC>) returns (g': Global, qc: QC)
    requires Pair(g, l, o, pl, po) && Proper(g.store, node.hash) && ToAll(ProposalMessage(pl.view, node, justify)) in g.nodes[l].outbox
    requires ProposalOk(g, pl.lock, pl.view, node, justify) && ProposalOk(g, po.lock, pl.view, node, justify)
    requires Cast(g, 3, l, Prepare, pl.view, node.hash)
    requires (Prepare, pl.view) !in pl.voted && (Prepare, pl.view) !in po.voted && (Prepare, pl.view) !in pl.counted
    ensures OnlyPair(g, l, o, g') && g'.store == g.store && Pair(g', l, o, Counting(pl, Prepare), Voting(po, Prepare, pl.view))
    ensures IsQC(g', qc, Prepare, pl.view, node.hash) && ToAll(PhaseMessage(PreCommit, pl.view, qc)) in g'.nodes[l].outbox
  {
    var g1 := PrepareBoth(g, l, o, pl, po, node, justify);
    CastLater(g, g1, 3, l, Prepare, pl.view, node.hash);
    g', qc := Announced2(g1, l, o, Voting(pl, Prepare, pl.view), Voting(po, Prepare, pl.view), Prepare, node.hash);
    OnlyPairOn(g, l, o, g1, g');
  }

  lemma PreCommitRound(g: Global, l: int, o: int, pl: Place, po: Place, h: Hash, qc: QC) returns (g': Global, qc': QC)
    requires Pair(g, l, o, pl, po) && Proper(g.store, h) && ToAll(PhaseMessage(PreCommit, pl.view, qc)) in g.nodes[l].outbox
    requires IsQC(g, qc, Prepare, pl.view, h) && Cast(g, 3, l, PreCommit, pl.view, h)
    requires (PreCommit, pl.view) !in pl.voted && (PreCommit, pl.view) !in po.voted && (PreCommit, pl.view) !in pl.counted
    requires (pl.prepareQC.Some? ==> pl.prepareQC.value.view < pl.view) && (po.prepareQC.Some? ==> po.prepareQC.value.view < pl.view)
    ensures OnlyPair(g, l, o, g') && g'.store == g.store
    ensures Pair(g', l, o, Counting(pl, PreCommit).(prepareQC := Some(qc)), Voting(po, PreCommit, pl.view).(prepareQC := Some(qc)))
    ensures IsQC(g', qc', PreCommit, pl.view, h) && ToAll(PhaseMessage(Commit, pl.view, qc')) in g'.nodes[l].outbox
  {
    var g1 := PreCommitBoth(g, l, o, pl, po, h, qc);
    CastLater(g, g1, 3, l, PreCommit, pl.view, h);
    g', qc' := Announced2(g1, l, o, Voting(pl, PreCommit, pl.view).(prepareQC := Some(qc)),
                          Voting(po, PreCommit, pl.view).(prepareQC := Some(qc)), PreCommit, h);
    OnlyPairOn(g, l, o, g1, g');
  }

  lemma CommitRound(g: Global, l: int, o: int, pl: Place, po: Place, h: Hash, qc: QC) returns (g': Global, qc': QC)
    requires Pair(g, l, o, pl, po) && Proper(g.store, h) && ToAll(PhaseMessage(Commit, pl.view, qc)) in g.nodes[l].outbox
    requires IsQC(g, qc, PreCommit, pl.view, h) && Cast(g, 3, l, Commit, pl.view, h)
    requires (Commit, pl.view) !in pl.voted && (Commit, pl.view) !in po.voted && (Commit, pl.view) !in pl.counted
    ensures OnlyPair(g, l, o, g') && g'.store == g.store
    ensures Pair(g', l, o, Counting(pl, Commit).(lock := Some((pl.view, h))), Voting(po, Commit, pl.view).(lock := Some((pl.view, h))))
    ensures IsQC(g', qc', Commit, pl.view, h) && ToAll(PhaseMessage(Decide, pl.view, qc')) in g'.nodes[l].outbox
  {
    var g1 := CommitBoth(g, l, o, pl, po, h, qc);
    CastLater(g, g1, 3, l, Commit, pl.view, h);
    CommitPlace(pl, h);
    g', qc' := CommitAnnounced(g1, l, o, Voting(pl, Commit, pl.view).(lock := Some((pl.view, h))),
                               Voting(po, Commit, pl.view).(lock := Some((pl.view, h))), h);
    OnlyPairOn(g, l, o, g1, g');
  }

  lemma CommitAnnounced(g: Global, l: int, o: int, pl: Place, po: Place, h: Hash) returns (g': Global, qc: QC)
    requires Pair(g, l, o, pl, po) && Proper(g.store, h) && (Commit, pl.view) !in pl.counted
    requires Cast(g, l, l, Commit, pl.view, h) && Cast(g, o, l, Commit, pl.view, h) && Cast(g, 3, l, Commit, pl.view, h)
    ensures OnlyPair(g, l, o, g') && g'.store == g.store && Pair(g', l, o, pl.(counted := pl.counted + {(Commit, pl.view)}), po)
    ensures IsQC(g', qc, Commit, pl.view, h) && ToAll(PhaseMessage(Decide, pl.view, qc)) in g'.nodes[l].outbox
  {
    g', qc := Announced2(g, l, o, pl, po, Commit, h);
  }

  lemma CommitPlace(p: Place, h: Hash)
    ensures var q := Voting(p, Commit, p.view).(lock := Some((p.view, h)));
            q.(counted := q.counted + {(Commit, p.view)}) == Counting(p, Commit).(lock := Some((p.view, h)))
  {
  }

  /** A view in which both prepare and pre-commit the proposal, and the leader sends its COMMIT. */
  lemma LeadTo(g: Global, l: int, o: int, pl: Place, po: Place, node: TreeNode, justify: Option<QC>) returns (g': Global, prepared: QC, locking: QC)
    requires Pair(g, l, o, pl, po) && Proper(g.store, node.hash) && ToAll(ProposalMessage(pl.view, node, justify)) in g.nodes[l].outbox
    requires ProposalOk(g, pl.lock, pl.view, node, justify) && ProposalOk(g, po.lock, pl.view, node, justify)
    requires Supported(g, pl.view, node.hash) && Before(pl) && Before(po)
    ensures OnlyPair(g, l, o, g') && g'.store == g.store
    ensures Pair(g', l, o, Led(pl, prepared), Followed(po, prepared))
    ensures IsQC(g', prepared, Prepare, pl.view, node.hash)
    ensures IsQC(g', locking, PreCommit, pl.view, node.hash) && ToAll(PhaseMessage(Commit, pl.view, locking)) in g'.nodes[l].outbox
  {
    var g1;
    g1, prepared := PrepareRound(g, l, o, pl, po, node, justify);
    var pl1, po1 := Counting(pl, Prepare), Voting(po, Prepare, pl.view);
    g', locking := PreCommitRound(g1, l, o, pl1, po1, node.hash, prepared);
    TwoPhases(pl, prepared);
    TwoPhases(po, prepared);
    OnlyPairOn(g, l, o, g1, g');
  }

  lemma TwoPhases(p: Place, qc: QC)
    ensures Counting(Counting(p, Prepare), PreCommit).(prepareQC := Some(qc)) == Led(p, qc)
    ensures Voting(Voting(p, Prepare, p.view), PreCommit, p.view).(prepareQC := Some(qc)) == Followed(p, qc)
  {
  }

  /** Nothing was voted for or counted in the replica's view yet. */
  ghost predicate Before(p: Place) {
    && (forall kind :: (kind, p.view) !in p.voted) && (forall kind :: (kind, p.view) !in p.counted)
    && (p.prepareQC.Some? ==> p.prepareQC.value.view < p.view)
  }

  function Followed(p: Place, qc: QC): Place {
    p.(voted := p.voted + {(Prepare, p.view), (PreCommit, p.view)}, prepareQC := Some(qc))
  }

  function Led(p: Place, qc: QC): Place {
    Followed(p, qc).(counted := p.counted + {(Prepare, p.view), (PreCommit, p.view)})
  }

  // ---------- view 2: replica 1 leads 1, 2 and 3 to commit the trunk ----------

  /** Three correct replicas; the faulty one has signed for all that is to come. */
  ghost predicate Base(g: Global, f: Fork) {
    Reachable(g) && f.Ok() && g.nodes.Keys == {0, 1, 2} && Supported(g, 2, f.T) && Supported(g, 3, f.L) && Supported(g, 4, f.R)
  }

  ghost predicate Sends(g: Global, p: int, kind: Kind, view: int, qc: QC) {
    p in g.nodes && ToAll(PhaseMessage(kind, view, qc)) in g.nodes[p].outbox
  }

  /** A replica that got one command, in view 2. */
  function Waiting(id: int, cmd: Command): Place {
    Start(id).(view := 2, pending := [cmd], known := {cmd.id})
  }

  lemma Beginning(f: Fork) returns (g: Global)
    requires f.Ok()
    ensures Base(g, f) && g.store == map[] && g.nodes == map[0 := NewNode(0), 1 := NewNode(1), 2 := NewNode(2)]
  {
    var start := Global(map[0 := NewNode(0), 1 := NewNode(1), 2 := NewNode(2)], map[], map[], {}, {});
    assert Init(FOUR, start);
    assert EndsIn([], [start], start);
    var g1 := Support(start, 2, f.T);
    var g2 := Support(g1, 3, f.L);
    g := Support(g2, 4, f.R);
  }

  /** A replica is given a command and moves to view 2. */
  lemma Prime(g: Global, f: Fork, p: int, cmd: Command) returns (g': Global)
    requires Base(g, f) && p in g.nodes && g.nodes[p] == NewNode(p) && cmd.id != ""
    ensures Base(g', f) && Moves(g, p, g') && g'.store == g.store && PlaceOf(g'.nodes[p]) == Waiting(p, cmd) && Reporting(g', p, 2, None)
  {
    NewNodeStarts(p);
    var g1 := ClientAt(g, p, Start(p), cmd);
    var at := Start(p).(pending := [cmd], known := {cmd.id});
    assert Start(p).(pending := [] + [cmd], known := {} + {cmd.id}) == at;
    g' := EnterAt(g1, p, at);
    MovesOn(g, p, g1, g');
  }

  ghost predicate Opened2(g: Global, f: Fork) {
    && Base(g, f) && g.nodes[0] == NewNode(0) && g.store == map[f.T := f.trunk]
    && PlaceOf(g.nodes[1]) == Waiting(1, f.base).(reported := {2}, proposed := {2}) && PlaceOf(g.nodes[2]) == Waiting(2, f.one)
    && ToAll(ProposalMessage(2, f.trunk, None)) in g.nodes[1].outbox
  }

  lemma Open2(f: Fork) returns (g: Global)
    requires f.Ok()
    ensures Opened2(g, f)
  {
    var g0 := Beginning(f);
    var g1 := Prime(g0, f, 1, f.base);
    var g2 := Prime(g1, f, 2, f.one);
    var at := Waiting(1, f.base);
    g := GatherAt(g2, 1, at, None, f.base, 1, 2);
    TrunkStored(f);
  }

  lemma TrunkStored(f: Fork)
    ensures NodeOn(None, f.base, 2) == f.trunk && Stored(map[], f.trunk) == map[f.T := f.trunk]
    ensures var p := Waiting(1, f.base); p.(reported := p.reported + {2}, proposed := p.proposed + {2}) == p.(reported := {2}, proposed := {2})
  {
  }

  const ALL_IN_2: set<(Kind, int)> := {(Prepare, 2), (PreCommit, 2), (Commit, 2)}

  function Leader2(f: Fork, prepared: QC): Place {
    Place(1, 2, Some(prepared), Some((2, f.T)), Genesis, ALL_IN_2, map[], {2}, ALL_IN_2, {2}, [f.base], {f.base.id})
  }

  function Follower2(f: Fork, prepared: QC): Place {
    Place(2, 2, Some(prepared), Some((2, f.T)), Genesis, ALL_IN_2, map[], {}, {}, {}, [f.one], {f.one.id})
  }

  /** The certificates of view 2: for the trunk in each phase; replica 1 has sent its COMMIT and its DECIDE. */
  ghost predicate TrunkCertified(g: Global, f: Fork, prepared: QC, locking: QC, deciding: QC) {
    && Base(g, f) && Proper(g.store, f.T) && IsQC(g, prepared, Prepare, 2, f.T)
    && IsQC(g, locking, PreCommit, 2, f.T) && Sends(g, 1, Commit, 2, locking)
    && IsQC(g, deciding, Commit, 2, f.T) && Sends(g, 1, Decide, 2, deciding)
  }

  lemma TrunkCertifiedLater(g: Global, g': Global, f: Fork, prepared: QC, locking: QC, deciding: QC)
    requires TrunkCertified(g, f, prepared, locking, deciding) && Later(g, g')
    ensures TrunkCertified(g', f, prepared, locking, deciding)
  {
    ProperLater(g, g', f.T);
  }

  lemma View2(f: Fork) returns (g: Global, prepared: QC, locking: QC, deciding: QC)
    requires f.Ok()
    ensures TrunkCertified(g, f, prepared, locking, deciding) && g.nodes[0] == NewNode(0) && g.store.Keys == {f.T}
    ensures PlaceOf(g.nodes[1]) == Leader2(f, prepared) && PlaceOf(g.nodes[2]) == Follower2(f, prepared)
  {
    var g0 := Open2(f);
    var pl, po := Waiting(1, f.base).(reported := {2}, proposed := {2}), Waiting(2, f.one);
    var g1;
    g1, prepared, locking := Lead2(g0, f, pl, po);
    g, deciding := Commit2(g1, f, prepared, locking);
    OnlyPairOn(g0, 1, 2, g1, g);
    assert g.store == g0.store;
  }

  lemma Lead2(g: Global, f: Fork, pl: Place, po: Place) returns (g': Global, prepared: QC, locking: QC)
    requires Opened2(g, f) && pl == Waiting(1, f.base).(reported := {2}, proposed := {2}) && po == Waiting(2, f.one)
    ensures OnlyPair(g, 1, 2, g') && g'.store == g.store && Base(g', f) && Proper(g'.store, f.T)
    ensures Pair(g', 1, 2, Led(pl, prepared), Followed(po, prepared)) && IsQC(g', prepared, Prepare, 2, f.T)
    ensures IsQC(g', locking, PreCommit, 2, f.T) && Sends(g', 1, Commit, 2, locking)
  {
    StoredProper(map[], f.trunk);
    assert Stored(map[], f.trunk) == g.store;
    g', prepared, locking := LeadTo(g, 1, 2, pl, po, f.trunk, None);
  }

  lemma Commit2(g: Global, f: Fork, prepared: QC, locking: QC) returns (g': Global, deciding: QC)
    requires Base(g, f) && Proper(g.store, f.T) && IsQC(g, prepared, Prepare, 2, f.T) && IsQC(g, locking, PreCommit, 2, f.T)
    requires Pair(g, 1, 2, Led(Waiting(1, f.base).(reported := {2}, proposed := {2}), prepared), Followed(Waiting(2, f.one), prepared))
    requires Sends(g, 1, Commit, 2, locking)
    ensures OnlyPair(g, 1, 2, g') && g'.store == g.store && TrunkCertified(g', f, prepared, locking, deciding)
    ensures PlaceOf(g'.nodes[1]) == Leader2(f, prepared) && PlaceOf(g'.nodes[2]) == Follower2(f, prepared)
  {
    var pl, po := Led(Waiting(1, f.base).(reported := {2}, proposed := {2}), prepared), Followed(Waiting(2, f.one), prepared);
    g', deciding := CommitRound(g, 1, 2, pl, po, f.T, locking);
    PlacesAfter2(f, prepared);
  }

  lemma PlacesAfter2(f: Fork, qc: QC)
    ensures Counting(Led(Waiting(1, f.base).(reported := {2}, proposed := {2}), qc), Commit).(lock := Some((2, f.T))) == Leader2(f, qc)
    ensures Voting(Followed(Waiting(2, f.one), qc), Commit, 2).(lock := Some((2, f.T))) == Follower2(f, qc)
  {
  }

  // ---------- view 3: replica 2 leads 1, 2 and 3 to pre-commit the left branch ----------

  const MOST_IN_3: set<(Kind, int)> := {(Prepare, 2), (PreCommit, 2), (Commit, 2), (Prepare, 3), (PreCommit, 3)}

  function Leader3(f: Fork, prepared: QC): Place {
    Place(2, 3, Some(prepared), Some((3, f.L)), Genesis, MOST_IN_3 + {(Commit, 3)}, map[], {3}, {(Prepare, 3), (PreCommit, 3)}, {3},
          [f.one], {f.one.id})
  }

  function Follower3(f: Fork, prepared: QC): Place {
    Place(1, 3, Some(prepared), Some((2, f.T)), Genesis, MOST_IN_3, map[], {2}, ALL_IN_2, {2}, [f.base], {f.base.id})
  }

  /** Replicas 1 and 2 enter view 3 and report; replica 2 proposes the left branch. */
  lemma Open3(g: Global, f: Fork, prepared: QC, locking: QC, deciding: QC) returns (g': Global)
    requires TrunkCertified(g, f, prepared, locking, deciding) && g.store.Keys == {f.T}
    requires PlaceOf(g.nodes[1]) == Leader2(f, prepared) && PlaceOf(g.nodes[2]) == Follower2(f, prepared)
    ensures OnlyPair(g, 2, 1, g') && g'.store == Stored(g.store, f.left)
    ensures Pair(g', 2, 1, Follower2(f, prepared).(view := 3, reported := {3}, proposed := {3}), Leader2(f, prepared).(view := 3))
    ensures ToAll(ProposalMessage(3, f.left, Some(prepared))) in g'.nodes[2].outbox
  {
    var g2 := Enter3(g, f, prepared);
    g' := GatherAt(g2, 2, Follower2(f, prepared).(view := 3), Some(prepared), f.one, 2, 1);
    PairThenOne(g, 2, 1, g2, g');
    PlaceOpened3(f, prepared);
  }

  lemma PlaceOpened3(f: Fork, qc: QC)
    ensures var p := Follower2(f, qc).(view := 3);
            p.(reported := p.reported + {3}, proposed := p.proposed + {3}) == Follower2(f, qc).(view := 3, reported := {3}, proposed := {3})
  {
  }

  lemma Enter3(g: Global, f: Fork, prepared: QC) returns (g': Global)
    requires Base(g, f) && PlaceOf(g.nodes[1]) == Leader2(f, prepared) && PlaceOf(g.nodes[2]) == Follower2(f, prepared)
    ensures OnlyPair(g, 2, 1, g') && g'.store == g.store
    ensures PlaceOf(g'.nodes[2]) == Follower2(f, prepared).(view := 3) && PlaceOf(g'.nodes[1]) == Leader2(f, prepared).(view := 3)
    ensures Reporting(g', 2, 3, Some(prepared)) && Reporting(g', 1, 3, Some(prepared))
  {
    var g1 := EnterAt(g, 2, Follower2(f, prepared));
    g' := EnterAt(g1, 1, Leader2(f, prepared));
    OnePairOn(g, 2, 1, g1, g');
    assert To(2, NewViewMessage(2, 2, Some(prepared))) in g1.nodes[2].outbox;
  }

  /** What the replay needs: the certificates of view 2, and the COMMIT of view 3. */
  ghost predicate LeftPreCommitted(g: Global, f: Fork, prepared: QC, locking: QC, deciding: QC, leftQC: QC) {
    && TrunkCertified(g, f, prepared, locking, deciding) && g.nodes[0] == NewNode(0) && g.store.Keys == {f.T, f.L} && Proper(g.store, f.L)
    && IsQC(g, leftQC, PreCommit, 3, f.L) && Sends(g, 2, Commit, 3, leftQC)
    && (exists qc: QC :: qc.view == 3 && PlaceOf(g.nodes[1]) == Follower3(f, qc) && PlaceOf(g.nodes[2]) == Leader3(f, qc))
    && Cast(g, 2, 2, Commit, 3, f.L)
  }

  lemma View3(g: Global, f: Fork, prepared: QC, locking: QC, deciding: QC) returns (g': Global, leftQC: QC)
    requires TrunkCertified(g, f, prepared, locking, deciding) && g.nodes[0] == NewNode(0) && g.store.Keys == {f.T}
    requires PlaceOf(g.nodes[1]) == Leader2(f, prepared) && PlaceOf(g.nodes[2]) == Follower2(f, prepared)
    ensures LeftPreCommitted(g', f, prepared, locking, deciding, leftQC)
  {
    var g1 := Open3(g, f, prepared, locking, deciding);
    TrunkCertifiedLater(g, g1, f, prepared, locking, deciding);
    LeftStored(g.store, f);
    var g2, qc;
    g2, qc, leftQC := PreCommit3(g1, f, prepared, locking, deciding);
    g' := Commit3(g2, f, prepared, locking, deciding, qc, leftQC);
  }

  lemma LeftStored(store: Tree, f: Fork)
    requires f.Ok() && Proper(store, f.T) && store.Keys == {f.T}
    ensures Proper(Stored(store, f.left), f.L) && Stored(store, f.left).Keys == {f.T, f.L}
  {
    StoredProper(store, f.left);
  }

  lemma PreCommit3(g: Global, f: Fork, prepared: QC, locking: QC, deciding: QC) returns (g': Global, qc: QC, leftQC: QC)
    requires TrunkCertified(g, f, prepared, locking, deciding) && Proper(g.store, f.L)
    requires Pair(g, 2, 1, Follower2(f, prepared).(view := 3, reported := {3}, proposed := {3}), Leader2(f, prepared).(view := 3))
    requires ToAll(ProposalMessage(3, f.left, Some(prepared))) in g.nodes[2].outbox
    ensures TrunkCertified(g', f, prepared, locking, deciding) && OnlyPair(g, 2, 1, g') && g'.store == g.store
    ensures qc.view == 3 && PlaceOf(g'.nodes[1]) == Follower3(f, qc)
    ensures PlaceOf(g'.nodes[2]) == Leader3(f, qc).(voted := MOST_IN_3, lock := Some((2, f.T)))
    ensures IsQC(g', leftQC, PreCommit, 3, f.L) && Sends(g', 2, Commit, 3, leftQC)
  {
    var pl, po := Follower2(f, prepared).(view := 3, reported := {3}, proposed := {3}), Leader2(f, prepared).(view := 3);
    assert Extends(f.L, f.T);
    g', qc, leftQC := LeadTo(g, 2, 1, pl, po, f.left, Some(prepared));
    TrunkCertifiedLater(g, g', f, prepared, locking, deciding);
    PlacesIn3(f, prepared, qc);
  }

  lemma PlacesIn3(f: Fork, prepared: QC, qc: QC)
    ensures Followed(Leader2(f, prepared).(view := 3), qc) == Follower3(f, qc)
    ensures Led(Follower2(f, prepared).(view := 3, reported := {3}, proposed := {3}), qc) == Leader3(f, qc).(voted := MOST_IN_3, lock := Some((2, f.T)))
  {
  }

  lemma Commit3(g: Global, f: Fork, prepared: QC, locking: QC, deciding: QC, qc: QC, leftQC: QC) returns (g': Global)
    requires TrunkCertified(g, f, prepared, locking, deciding) && Proper(g.store, f.L) && g.store.Keys == {f.T, f.L} && g.nodes[0] == NewNode(0)
    requires qc.view == 3 && PlaceOf(g.nodes[1]) == Follower3(f, qc)
    requires PlaceOf(g.nodes[2]) == Leader3(f, qc).(voted := MOST_IN_3, lock := Some((2, f.T)))
    requires IsQC(g, leftQC, PreCommit, 3, f.L) && Sends(g, 2, Commit, 3, leftQC)
    ensures LeftPreCommitted(g', f, prepared, locking, deciding, leftQC)
  {
    var at := Leader3(f, qc).(voted := MOST_IN_3, lock := Some((2, f.T)));
    g' := CommitAt(g, 2, at, f.L, leftQC);
    TrunkCertifiedLater(g, g', f, prepared, locking, deciding);
    assert PlaceOf(g'.nodes[2]) == Leader3(f, qc);
  }

  // ---------- replica 0 replays what it buffered in view 1 ----------

  /** The DECIDE of view 2 waits ahead of the COMMIT of view 2, and a COMMIT of view 3 waits too. */
  function DecideFirst(deciding: QC, locking: QC, leftQC: QC): map<int, seq<Message>> {
    map[2 := [PhaseMessage(Decide, 2, deciding), PhaseMessage(Commit, 2, locking)], 3 := [PhaseMessage(Commit, 3, leftQC)]]
  }

  function Buffering(deciding: QC, locking: QC, leftQC: QC): Place {
    Start(0).(future := DecideFirst(deciding, locking, leftQC))
  }

  /** Where the replay leaves replica 0. */
  function Replayed(f: Fork): Place {
    Start(0).(view := 3, lock := Some((2, f.T)), last := f.T, voted := {(Commit, 2), (Commit, 3)})
  }

  /** The timeout of view 1 replays a DECIDE that leads on to view 3, whose COMMIT locks the left branch and is
      voted for. The COMMIT of view 2, buffered behind the DECIDE, then takes the lock back to the trunk. */
  lemma LockTakenBack(g: Global, f: Fork, prepared: QC, locking: QC, deciding: QC, leftQC: QC)
    returns (ready: Global, trail: seq<Action>, g': Global)
    requires LeftPreCommitted(g, f, prepared, locking, deciding, leftQC)
    ensures Moves(g, 0, ready) && PlaceOf(ready.nodes[0]) == Buffering(deciding, locking, leftQC)
    ensures Moves(ready, 0, g') && Moves(g, 0, g') && g'.store == g.store
    ensures Answers(4, SceneOf(ready, 0), Timeout(1), trail, SceneOf(g', 0)) && !InTime(trail)
    ensures PlaceOf(g'.nodes[0]) == Replayed(f) && Cast(g', 0, 2, Commit, 3, f.L)
  {
    ready := FillBuffer(g, f, prepared, locking, deciding, leftQC);
    SceneOk(ready, 0);
    var c';
    trail, c' := ViewTwoEntered(SceneOf(ready, 0), f, deciding, locking, leftQC);
    g' := PerformTimeout(ready, 0, trail, c');
    MovesOn(g, 0, ready, g');
  }

  lemma PerformTimeout(g: Global, p: int, trail: seq<Action>, c': Scene) returns (g': Global)
    requires Reachable(g) && p in g.nodes && EntersBy(4, SceneOf(g, p), g.nodes[p].view + 1, trail, c') && Grows(SceneOf(g, p), c')
    requires forall a :: a in trail ==> !a.Count?
    ensures Moves(g, p, g') && SceneOf(g', p) == c' && Answers(4, SceneOf(g, p), Timeout(g.nodes[p].view), trail, c')
  {
    g' := Perform(g, p, Timeout(g.nodes[p].view), trail, c');
  }

  lemma FillBuffer(g: Global, f: Fork, prepared: QC, locking: QC, deciding: QC, leftQC: QC) returns (g': Global)
    requires LeftPreCommitted(g, f, prepared, locking, deciding, leftQC)
    ensures Moves(g, 0, g') && g'.store == g.store && g'.certs == g.certs
    ensures g'.nodes[0] == NewNode(0).(future := DecideFirst(deciding, locking, leftQC))
    ensures PlaceOf(g'.nodes[0]) == Buffering(deciding, locking, leftQC)
  {
    var decide, late, left := PhaseMessage(Decide, 2, deciding), PhaseMessage(Commit, 2, locking), PhaseMessage(Commit, 3, leftQC);
    var g1 := BufferOne(g, decide);
    var g2 := BufferOne(g1, late);
    g' := BufferOne(g2, left);
    MovesOn(g, 0, g1, g2);
    MovesOn(g, 0, g2, g');
    BufferedThree(g.nodes[0], g1.nodes[0], g2.nodes[0], g'.nodes[0], decide, late, left);
    NewNodeStarts(0);
  }

  lemma BufferOne(g: Global, msg: Message) returns (g': Global)
    requires Reachable(g) && 0 in g.nodes && 1 <= g.nodes[0].view < msg.view && msg.sender == Leader(4, msg.view) && msg.kind != NewView
    requires msg.sender in g.nodes && ToAll(msg) in g.nodes[msg.sender].outbox
    ensures Moves(g, 0, g') && g'.store == g.store && g'.certs == g.certs
    ensures g'.nodes[0] == g.nodes[0].(future := g.nodes[0].future[msg.view := Batch(g.nodes[0], msg.view) + [msg]])
  {
    g' := BufferAt(g, 0, msg);
  }

  lemma BufferedThree(s: NodeState, s1: NodeState, s2: NodeState, s3: NodeState, decide: Message, late: Message, left: Message)
    requires s == NewNode(0) && decide.view == late.view == 2 && left.view == 3
    requires s1 == s.(future := s.future[2 := Batch(s, 2) + [decide]])
    requires s2 == s1.(future := s1.future[2 := Batch(s1, 2) + [late]])
    requires s3 == s2.(future := s2.future[3 := Batch(s2, 3) + [left]])
    ensures s3 == s.(future := map[2 := [decide, late], 3 := [left]])
  {
    assert Batch(s, 2) + [decide] == [decide];
    assert Batch(s1, 2) + [late] == [decide, late];
    assert Batch(s2, 3) + [left] == [left];
    assert s3.future == map[2 := [decide, late], 3 := [left]];
  }

  /** The certificates verify and their nodes can be obtained. */
  ghost predicate Supplied(c: Scene, f: Fork, deciding: QC, locking: QC, leftQC: QC) {
    && TreeOk(c) && LedgerOk(c.s) && Available(c.store, f.T) && Available(c.store, f.L)
    && Verifies(4, c.certs, deciding) && deciding.kind == Commit && deciding.view == 2 && deciding.hash == f.T
    && Verifies(4, c.certs, locking) && locking.kind == PreCommit && locking.view == 2 && locking.hash == f.T
    && Verifies(4, c.certs, leftQC) && leftQC.kind == PreCommit && leftQC.view == 3 && leftQC.hash == f.L
  }

  lemma ReplaysOne(c: Scene, msg: Message, trail: seq<Action>, c': Scene)
    requires TakesBy(4, c, msg, trail, c')
    ensures ReplaysBy(4, c, [msg], trail, c')
  {
    var none: seq<Message>, nothing: seq<Action> := [], [];
    assert ReplaysBy(4, c, none, nothing, c);
    ReplaysMore(4, c, none, nothing, c, msg, trail, c');
    assert none + [msg] == [msg] && nothing + trail == trail;
  }

  lemma EntersWithOne(c: Scene, view: int, msg: Message, trail: seq<Action>, c': Scene)
    requires view > c.s.view && Batch(c.s, view) == [msg] && TakesBy(4, Entered(4, c, view), msg, trail, c') && c'.s.view !in c'.s.newViews
    ensures EntersBy(4, c, view, [Enter(view)] + trail + [Propose(None)], c')
  {
    ReplaysOne(Entered(4, c, view), msg, trail, c');
    ProposesNothing(c');
    EntersOn(4, c, view, trail, c', None, c');
  }

  /** Replica 0 in view 2 with the COMMIT of view 3 still buffered. */
  function Between(leftQC: QC): Place {
    Start(0).(view := 2, future := map[3 := [PhaseMessage(Commit, 3, leftQC)]])
  }

  /** Replica 0 in view 3, locked on the left branch. */
  function LockedLeft(f: Fork): Place {
    Start(0).(view := 3, lock := Some((3, f.L)), last := f.T, voted := {(Commit, 3)})
  }

  ghost predicate SameShared(c: Scene, c': Scene) {
    TreeOk(c') && c'.store == c.store && c'.certs == c.certs && Grows(c, c')
  }

  lemma SameSharedOn(c: Scene, c1: Scene, c2: Scene)
    requires SameShared(c, c1) && SameShared(c1, c2)
    ensures SameShared(c, c2)
  {
  }

  lemma LeftLockedScene(c: Scene, f: Fork, leftQC: QC) returns (c': Scene)
    requires TreeOk(c) && Available(c.store, f.L) && Verifies(4, c.certs, leftQC) && leftQC.kind == PreCommit && leftQC.view == 3 && leftQC.hash == f.L
    requires PlaceOf(c.s) == Between(leftQC).(last := f.T)
    ensures TakesBy(4, Entered(4, c, 3), PhaseMessage(Commit, 3, leftQC), [Handle(PhaseMessage(Commit, 3, leftQC), 3)], c')
    ensures c.s.view < 3 && Batch(c.s, 3) == [PhaseMessage(Commit, 3, leftQC)] && c'.s.view !in c'.s.newViews
    ensures SameShared(c, c') && PlaceOf(c'.s) == LockedLeft(f) && VoteOut(c'.s, 2, Commit, 3, f.L)
  {
    var c1 := Entered(4, c, 3);
    EnteredPlace(c, 3);
    assert c.s.future - {3} == map[];
    AvailableToAll(c1.s.tree, c1.store, f.L);
    CommitLocks(c1, 3, leftQC);
    c' := ReplicaHandled(4, c1, PhaseMessage(Commit, 3, leftQC));
    SameSharedOn(c, c1, c');
    TakenAlone(c1, PhaseMessage(Commit, 3, leftQC));
  }

  /** Entering view 3 replays its COMMIT. */
  lemma LeftLocked(c: Scene, f: Fork, leftQC: QC) returns (trail: seq<Action>, c': Scene)
    requires TreeOk(c) && Available(c.store, f.L) && Verifies(4, c.certs, leftQC) && leftQC.kind == PreCommit && leftQC.view == 3 && leftQC.hash == f.L
    requires PlaceOf(c.s) == Between(leftQC).(last := f.T)
    ensures EntersBy(4, c, 3, trail, c') && SameShared(c, c') && forall a :: a in trail ==> !a.Count?
    ensures PlaceOf(c'.s) == LockedLeft(f) && VoteOut(c'.s, 2, Commit, 3, f.L)
  {
    var msg := PhaseMessage(Commit, 3, leftQC);
    c' := LeftLockedScene(c, f, leftQC);
    EntersWithOne(c, 3, msg, [Handle(msg, 3)], c');
    trail := [Enter(3)] + [Handle(msg, 3)] + [Propose(None)];
  }

  /** The DECIDE of view 2 leads on to view 3. */
  lemma DecidedEarly(c: Scene, f: Fork, deciding: QC, locking: QC, leftQC: QC) returns (trail: seq<Action>, c': Scene)
    requires Supplied(c, f, deciding, locking, leftQC) && PlaceOf(c.s) == Between(leftQC)
    ensures TakesBy(4, c, PhaseMessage(Decide, 2, deciding), trail, c') && SameShared(c, c') && forall a :: a in trail ==> !a.Count?
    ensures PlaceOf(c'.s) == LockedLeft(f) && VoteOut(c'.s, 2, Commit, 3, f.L)
  {
    var msg := PhaseMessage(Decide, 2, deciding);
    var c1 := DecidedScene(c, f, deciding, leftQC);
    var more;
    more, c' := LeftLocked(c1, f, leftQC);
    SameSharedOn(c, c1, c');
    TakenThenEntered(c, msg, more, c');
    trail := [Handle(msg, 2)] + more;
  }

  lemma DecidedScene(c: Scene, f: Fork, deciding: QC, leftQC: QC) returns (c': Scene)
    requires TreeOk(c) && LedgerOk(c.s) && Available(c.store, f.T) && PlaceOf(c.s) == Between(leftQC)
    requires Verifies(4, c.certs, deciding) && deciding.kind == Commit && deciding.view == 2 && deciding.hash == f.T
    ensures Decides(4, c, PhaseMessage(Decide, 2, deciding)) && c' == ReplicaHandled(4, c, PhaseMessage(Decide, 2, deciding))
    ensures SameShared(c, c') && PlaceOf(c'.s) == Between(leftQC).(last := f.T)
  {
    AvailableToAll(c.s.tree, c.store, f.T);
    DecideExecutes(c, 2, deciding);
    c' := ReplicaHandled(4, c, PhaseMessage(Decide, 2, deciding));
  }

  /** The batch of view 2: after its DECIDE, its COMMIT is handled in view 3. */
  lemma TrunkLockedAgain(c: Scene, f: Fork, deciding: QC, locking: QC, leftQC: QC) returns (trail: seq<Action>, c': Scene)
    requires Supplied(c, f, deciding, locking, leftQC) && PlaceOf(c.s) == Between(leftQC)
    ensures ReplaysBy(4, c, [PhaseMessage(Decide, 2, deciding), PhaseMessage(Commit, 2, locking)], trail, c')
    ensures Handle(PhaseMessage(Commit, 2, locking), 3) in trail && SameShared(c, c') && forall a :: a in trail ==> !a.Count?
    ensures PlaceOf(c'.s) == Replayed(f) && VoteOut(c'.s, 2, Commit, 3, f.L)
  {
    var decide, late := PhaseMessage(Decide, 2, deciding), PhaseMessage(Commit, 2, locking);
    var first, mid := DecidedEarly(c, f, deciding, locking, leftQC);
    ReplaysOne(c, decide, first, mid);
    c' := LateCommitScene(mid, f, locking);
    ReplaysMore(4, c, [decide], first, mid, late, [Handle(late, 3)], c');
    assert [decide] + [late] == [decide, late];
    trail := first + [Handle(late, 3)];
    SameSharedOn(c, mid, c');
  }

  lemma LateCommitScene(c: Scene, f: Fork, locking: QC) returns (c': Scene)
    requires TreeOk(c) && Available(c.store, f.T) && PlaceOf(c.s) == LockedLeft(f) && VoteOut(c.s, 2, Commit, 3, f.L)
    requires Verifies(4, c.certs, locking) && locking.kind == PreCommit && locking.view == 2 && locking.hash == f.T
    ensures TakesBy(4, c, PhaseMessage(Commit, 2, locking), [Handle(PhaseMessage(Commit, 2, locking), 3)], c')
    ensures SameShared(c, c') && PlaceOf(c'.s) == Replayed(f) && VoteOut(c'.s, 2, Commit, 3, f.L)
  {
    AvailableToAll(c.s.tree, c.store, f.T);
    CommitLocks(c, 2, locking);
    c' := ReplicaHandled(4, c, PhaseMessage(Commit, 2, locking));
    TakenAlone(c, PhaseMessage(Commit, 2, locking));
    assert {(Commit, 3)} + {(Commit, 2)} == {(Commit, 2), (Commit, 3)};
    VoteStillOut(c, c', 2, Commit, 3, f.L);
  }

  lemma VoteStillOut(c: Scene, c': Scene, leader: int, kind: Kind, view: int, h: Hash)
    requires Grows(c, c') && c'.s.id == c.s.id && VoteOut(c.s, leader, kind, view, h)
    ensures VoteOut(c'.s, leader, kind, view, h)
  {
    var m :| To(leader, m) in c.s.outbox && IsVoteFor(m, c.s.id, kind, view, h);
    assert To(leader, m) in c'.s.outbox;
  }

  /** Entering view 2 replays that batch. */
  lemma ViewTwoEntered(c: Scene, f: Fork, deciding: QC, locking: QC, leftQC: QC) returns (trail: seq<Action>, c': Scene)
    requires Supplied(c, f, deciding, locking, leftQC) && PlaceOf(c.s) == Buffering(deciding, locking, leftQC)
    ensures EntersBy(4, c, 2, trail, c') && !InTime(trail) && SameShared(c, c') && forall a :: a in trail ==> !a.Count?
    ensures PlaceOf(c'.s) == Replayed(f) && VoteOut(c'.s, 2, Commit, 3, f.L)
  {
    var inner;
    inner, c' := BatchReplayed(c, f, deciding, locking, leftQC);
    ProposesNothing(c');
    EntersOn(4, c, 2, inner, c', None, c');
    trail := [Enter(2)] + inner + [Propose(None)];
    assert !Prompt(PhaseMessage(Commit, 2, locking), 3);
  }

  lemma BatchReplayed(c: Scene, f: Fork, deciding: QC, locking: QC, leftQC: QC) returns (inner: seq<Action>, c': Scene)
    requires Supplied(c, f, deciding, locking, leftQC) && PlaceOf(c.s) == Buffering(deciding, locking, leftQC)
    ensures c.s.view < 2 && ReplaysBy(4, Entered(4, c, 2), Batch(c.s, 2), inner, c')
    ensures Handle(PhaseMessage(Commit, 2, locking), 3) in inner && SameShared(c, c') && forall a :: a in inner ==> !a.Count?
    ensures PlaceOf(c'.s) == Replayed(f) && VoteOut(c'.s, 2, Commit, 3, f.L) && c'.s.view !in c'.s.newViews
  {
    var c1 := Entered(4, c, 2);
    EnteredPlace(c, 2);
    assert c.s.future - {2} == map[3 := [PhaseMessage(Commit, 3, leftQC)]];
    inner, c' := TrunkLockedAgain(c1, f, deciding, locking, leftQC);
    SameSharedOn(c, c1, c');
  }

  // ---------- replica 2 executes the left branch ----------

  ghost predicate LeftExecuted(g: Global, f: Fork, prepared: QC) {
    && Base(g, f) && Proper(g.store, f.T) && g.store.Keys == {f.T, f.L} && IsQC(g, prepared, Prepare, 2, f.T)
    && PlaceOf(g.nodes[0]) == Replayed(f) && (exists qc: QC :: qc.view == 3 && PlaceOf(g.nodes[1]) == Follower3(f, qc))
    && g.nodes[2].lastExecuted == f.L
  }

  lemma ExecuteLeft(g: Global, f: Fork, prepared: QC, locking: QC, deciding: QC, leftQC: QC) returns (g': Global)
    requires LeftPreCommitted(g, f, prepared, locking, deciding, leftQC)
    ensures LeftExecuted(g', f, prepared)
  {
    var ready, trail, g1 := LockTakenBack(g, f, prepared, locking, deciding, leftQC);
    var qc: QC :| qc.view == 3 && PlaceOf(g.nodes[1]) == Follower3(f, qc) && PlaceOf(g.nodes[2]) == Leader3(f, qc);
    TrunkCertifiedLater(g, g1, f, prepared, locking, deciding);
    ProperLater(g, g1, f.L);
    CastLater(g, g1, 2, 2, Commit, 3, f.L);
    g' := ExecuteThere(g1, f, prepared, locking, deciding, qc);
  }

  lemma ExecuteThere(g: Global, f: Fork, prepared: QC, locking: QC, deciding: QC, qc: QC) returns (g': Global)
    requires TrunkCertified(g, f, prepared, locking, deciding) && Proper(g.store, f.L) && g.store.Keys == {f.T, f.L}
    requires PlaceOf(g.nodes[0]) == Replayed(f) && qc.view == 3 && PlaceOf(g.nodes[1]) == Follower3(f, qc) && PlaceOf(g.nodes[2]) == Leader3(f, qc)
    requires Cast(g, 0, 2, Commit, 3, f.L) && Cast(g, 2, 2, Commit, 3, f.L)
    ensures LeftExecuted(g', f, prepared)
  {
    g' := DecideLeft(g, f, Leader3(f, qc));
    TrunkCertifiedLater(g, g', f, prepared, locking, deciding);
  }

  lemma DecideLeft(g: Global, f: Fork, at: Place) returns (g': Global)
    requires Base(g, f) && Proper(g.store, f.L) && PlaceOf(g.nodes[2]) == at && at.id == 2 && at.view == 3 && (Commit, 3) !in at.counted
    requires at.last == Genesis && at.future == map[] && 4 !in at.reported
    requires Cast(g, 0, 2, Commit, 3, f.L) && Cast(g, 2, 2, Commit, 3, f.L)
    ensures Moves(g, 2, g') && g'.store == g.store && g'.nodes[2].lastExecuted == f.L
  {
    var g1, top := CollectAt(g, 2, at, Commit, f.L, 0, 2);
    assert Extends(f.L, Genesis);
    g' := DecideAt(g1, 2, at.(counted := at.counted + {(Commit, 3)}), f.L, top);
    MovesOn(g, 2, g1, g');
  }

  // ---------- view 4: the faulty replica leads 0 and 1 to commit the right branch ----------

  /** Two correct replicas in a view that the faulty one leads. */
  ghost predicate Misled(g: Global, f: Fork, p0: Place, p1: Place) {
    && Base(g, f) && PlaceOf(g.nodes[0]) == p0 && PlaceOf(g.nodes[1]) == p1 && p0.view == p1.view == 4 && p0.id == 0 && p1.id == 1
    && g.nodes[2].lastExecuted == f.L
  }

  /** Both are locked on the trunk and have not voted in view 4; replica 0 has executed the trunk. */
  ghost predicate Ready4(f: Fork, p0: Place, p1: Place) {
    && (forall kind :: (kind, 4) !in p0.voted && (kind, 4) !in p1.voted) && p0.lock == p1.lock == Some((2, f.T))
    && p0.prepareQC.None? && (p1.prepareQC.Some? ==> p1.prepareQC.value.view < 4)
    && p0.last == f.T && p0.future == map[] && p0.reported == {}
  }

  lemma PlacesBefore4(f: Fork, qc: QC)
    requires qc.view == 3
    ensures Ready4(f, Replayed(f).(view := 4), Follower3(f, qc).(view := 4))
  {
  }

  lemma View4(g: Global, f: Fork, prepared: QC) returns (g': Global)
    requires LeftExecuted(g, f, prepared)
    ensures Base(g', f) && g'.nodes[0].lastExecuted == f.R && g'.nodes[2].lastExecuted == f.L
  {
    var qc: QC :| qc.view == 3 && PlaceOf(g.nodes[1]) == Follower3(f, qc);
    var g1 := Open4(g, f, prepared, qc);
    PlacesBefore4(f, qc);
    g' := Vote4(g1, f, prepared, Replayed(f).(view := 4), Follower3(f, qc).(view := 4));
  }

  lemma Open4(g: Global, f: Fork, prepared: QC, qc: QC) returns (g': Global)
    requires LeftExecuted(g, f, prepared) && PlaceOf(g.nodes[1]) == Follower3(f, qc)
    ensures Misled(g', f, Replayed(f).(view := 4), Follower3(f, qc).(view := 4))
    ensures Proper(g'.store, f.T) && g'.store == g.store && IsQC(g', prepared, Prepare, 2, f.T)
  {
    var g1 := EnterAt(g, 0, Replayed(f));
    g' := EnterAt(g1, 1, Follower3(f, qc));
    OnePairOn(g, 0, 1, g1, g');
  }

  lemma Prepare4(g: Global, f: Fork, prepared: QC, p0: Place, p1: Place) returns (g': Global)
    requires Misled(g, f, p0, p1) && Proper(g.store, f.T) && g.store.Keys == {f.T, f.L} && IsQC(g, prepared, Prepare, 2, f.T)
    requires p0.lock == p1.lock == Some((2, f.T)) && (Prepare, 4) !in p0.voted && (Prepare, 4) !in p1.voted
    ensures Misled(g', f, Voting(p0, Prepare, 4), Voting(p1, Prepare, 4)) && Proper(g'.store, f.R)
    ensures Cast(g', 0, 3, Prepare, 4, f.R) && Cast(g', 1, 3, Prepare, 4, f.R)
  {
    assert Extends(f.R, f.T);
    var g1 := PrepareAt(g, 0, p0, f.right, Some(prepared));
    AvailableLater(g.store, g1.store, f.T);
    StoredProper(g.store, f.right);
    g' := PrepareAt(g1, 1, p1, f.right, Some(prepared));
    CastLater(g1, g', 0, 3, Prepare, 4, f.R);
  }

  lemma PreCommit4(g: Global, f: Fork, p0: Place, p1: Place) returns (g': Global, qc: QC)
    requires Misled(g, f, p0, p1) && Proper(g.store, f.R) && Cast(g, 0, 3, Prepare, 4, f.R) && Cast(g, 1, 3, Prepare, 4, f.R)
    requires (PreCommit, 4) !in p0.voted && (PreCommit, 4) !in p1.voted && p0.prepareQC.None? && (p1.prepareQC.Some? ==> p1.prepareQC.value.view < 4)
    ensures Proper(g'.store, f.R) && Cast(g', 0, 3, PreCommit, 4, f.R) && Cast(g', 1, 3, PreCommit, 4, f.R)
    ensures Misled(g', f, PreCommitted4(p0, qc), PreCommitted4(p1, qc))
  {
    var g1;
    g1, qc := MintAt(g, Prepare, 4, f.R, 0, 1);
    var g2 := PreCommitAt(g1, 0, p0, f.R, qc);
    g' := PreCommitAt(g2, 1, p1, f.R, qc);
    CastLater(g2, g', 0, 3, PreCommit, 4, f.R);
  }

  lemma Commit4(g: Global, f: Fork, p0: Place, p1: Place) returns (g': Global)
    requires Misled(g, f, p0, p1) && Proper(g.store, f.R) && Cast(g, 0, 3, PreCommit, 4, f.R) && Cast(g, 1, 3, PreCommit, 4, f.R)
    requires (Commit, 4) !in p0.voted && (Commit, 4) !in p1.voted
    ensures Misled(g', f, Voting(p0, Commit, 4).(lock := Some((4, f.R))), Voting(p1, Commit, 4).(lock := Some((4, f.R))))
    ensures Proper(g'.store, f.R) && Cast(g', 0, 3, Commit, 4, f.R) && Cast(g', 1, 3, Commit, 4, f.R)
  {
    var g1, qc := MintAt(g, PreCommit, 4, f.R, 0, 1);
    var g2 := CommitAt(g1, 0, p0, f.R, qc);
    g' := CommitAt(g2, 1, p1, f.R, qc);
    CastLater(g2, g', 0, 3, Commit, 4, f.R);
  }

  lemma Vote4(g: Global, f: Fork, prepared: QC, p0: Place, p1: Place) returns (g': Global)
    requires Misled(g, f, p0, p1) && Ready4(f, p0, p1)
    requires Proper(g.store, f.T) && g.store.Keys == {f.T, f.L} && IsQC(g, prepared, Prepare, 2, f.T)
    ensures Base(g', f) && g'.nodes[0].lastExecuted == f.R && g'.nodes[2].lastExecuted == f.L
  {
    NotYet4(f, p0, p1);
    var g1 := Prepare4(g, f, prepared, p0, p1);
    var g2, qc := PreCommit4(g1, f, Voting(p0, Prepare, 4), Voting(p1, Prepare, 4));
    g' := Finish4(g2, f, PreCommitted4(Voting(p0, Prepare, 4), qc), PreCommitted4(Voting(p1, Prepare, 4), qc));
  }

  lemma NotYet4(f: Fork, p0: Place, p1: Place)
    requires Ready4(f, p0, p1)
    ensures (Prepare, 4) !in p0.voted && (Prepare, 4) !in p1.voted
    ensures (PreCommit, 4) !in Voting(p0, Prepare, 4).voted && (PreCommit, 4) !in Voting(p1, Prepare, 4).voted
    ensures forall qc :: (Commit, 4) !in PreCommitted4(Voting(p0, Prepare, 4), qc).voted && (Commit, 4) !in PreCommitted4(Voting(p1, Prepare, 4), qc).voted
  {
  }

  function PreCommitted4(p: Place, qc: QC): Place {
    Voting(p, PreCommit, 4).(prepareQC := Some(qc))
  }

  lemma Finish4(g: Global, f: Fork, p0: Place, p1: Place) returns (g': Global)
    requires Misled(g, f, p0, p1) && Proper(g.store, f.R) && Cast(g, 0, 3, PreCommit, 4, f.R) && Cast(g, 1, 3, PreCommit, 4, f.R)
    requires (Commit, 4) !in p0.voted && (Commit, 4) !in p1.voted && p0.last == f.T && p0.future == map[] && p0.reported == {}
    ensures Base(g', f) && g'.nodes[0].lastExecuted == f.R && g'.nodes[2].lastExecuted == f.L
  {
    var g1 := Commit4(g, f, p0, p1);
    g' := Decide4(g1, f, Voting(p0, Commit, 4).(lock := Some((4, f.R))), Voting(p1, Commit, 4).(lock := Some((4, f.R))));
  }

  lemma Decide4(g: Global, f: Fork, p0: Place, p1: Place) returns (g': Global)
    requires Misled(g, f, p0, p1) && Proper(g.store, f.R) && Cast(g, 0, 3, Commit, 4, f.R) && Cast(g, 1, 3, Commit, 4, f.R)
    requires p0.last == f.T && p0.future == map[] && p0.reported == {}
    ensures Base(g', f) && g'.nodes[0].lastExecuted == f.R && g'.nodes[2].lastExecuted == f.L
  {
    var g1, qc := MintAt(g, Commit, 4, f.R, 0, 1);
    assert Extends(f.R, f.T);
    g' := DecideAt(g1, 0, p0, f.R, qc);
  }

  /** Replaying without the view check lets two correct replicas execute conflicting nodes. */
  lemma ConflictingCommits(f: Fork) returns (moves: seq<Move>, states: seq<Global>, g: Global)
    requires f.Ok()
    ensures FOUR.Tolerable() && AuthenticRun(FOUR, moves, states) && g == states[|moves|] && {0, 2} <= g.nodes.Keys
    ensures var a, b := g.nodes[0].lastExecuted, g.nodes[2].lastExecuted; !Extends(a, b) && !Extends(b, a)
  {
    g := WholeRun(f);
    moves, states :| EndsIn(moves, states, g);
    BranchesConflict(f);
  }

  lemma WholeRun(f: Fork) returns (g: Global)
    requires f.Ok()
    ensures Base(g, f) && g.nodes[0].lastExecuted == f.R && g.nodes[2].lastExecuted == f.L
  {
    var g1, prepared, locking, deciding := View2(f);
    var g2, leftQC := View3(g1, f, prepared, locking, deciding);
    var g3 := ExecuteLeft(g2, f, prepared, locking, deciding, leftQC);
    g := View4(g3, f, prepared);
  }

  lemma BranchesConflict(f: Fork)
    requires f.Ok()
    ensures !Extends(f.L, f.R) && !Extends(f.R, f.L)
  {
    assert Depth(f.L) == Depth(f.T) + 1 == Depth(f.R) && f.L != f.R;
    if Extends(f.L, f.R) {
      DepthShrinks(f.L, f.R);
    }
    if Extends(f.R, f.L) {
      DepthShrinks(f.R, f.L);
    }
  }
}
