/** Single calls in a cluster of four replicas, one of them faulty, whose transport stamps the senders: what each
    call does to the replica that is called, to what it has sent and to what all replicas share. */
module HotStuffSteps {
  import opened HotStuffTree
  import opened HotStuffVotes
  import opened HotStuffCrypto
  import opened HotStuffNode
  import opened HotStuffEffects
  import opened HotStuffCalls
  import opened HotStuffRuns
  import opened HotStuffCallRuns

  const FOUR: Cluster := Cluster(4, {3})

  // ---------- reachable states ----------

  ghost predicate EndsIn(moves: seq<Move>, states: seq<Global>, g: Global) {
    AuthenticRun(FOUR, moves, states) && states[|moves|] == g
  }

  ghost predicate Reachable(g: Global) {
    exists moves, states :: EndsIn(moves, states, g)
  }

  lemma ReachableOk(g: Global)
    requires Reachable(g)
    ensures Inv(FOUR, g)
  {
    var moves, states :| EndsIn(moves, states, g);
    var events, micro, marks := CallRunIsRun(FOUR, moves, states, |moves|);
    RunKeeps(FOUR, events, micro, |events|);
  }

  lemma SceneOk(g: Global, p: int)
    requires Reachable(g) && p in g.nodes
    ensures TreeOk(SceneOf(g, p)) && LedgerOk(g.nodes[p]) && g.nodes[p].id == p
    ensures forall t :: t in g.certs ==> t == DigestOf(g.certs[t])
  {
    ReachableOk(g);
    assert NodeOk(FOUR, g.signed, p, g.nodes[p]);
  }

  lemma CallRunOn(moves: seq<Move>, states: seq<Global>, m: Move, g': Global)
    requires CallRun(FOUR, moves, states) && Moved(FOUR, states[|moves|], m, g')
    ensures CallRun(FOUR, moves + [m], states + [g'])
  {
    var moves', states' := moves + [m], states + [g'];
    forall i | 0 <= i < |moves'| ensures Moved(FOUR, states'[i], moves'[i], states'[i + 1]) {
      if i < |moves| {
        assert states'[i] == states[i] && states'[i + 1] == states[i + 1] && moves'[i] == moves[i];
      }
    }
  }

  lemma Extend(g: Global, m: Move, g': Global)
    requires Reachable(g) && Moved(FOUR, g, m, g') && AuthenticMove(FOUR, g, m)
    ensures Reachable(g')
  {
    var moves, states :| EndsIn(moves, states, g);
    CallRunOn(moves, states, m, g');
    var moves', states' := moves + [m], states + [g'];
    forall i | 0 <= i < |moves'| ensures AuthenticMove(FOUR, states'[i], moves'[i]) {
      if i < |moves| {
        assert AuthenticMove(FOUR, states[i], moves[i]);
      }
    }
    assert EndsIn(moves', states', g');
  }

  /** What was sent, stored and certified is still there. */
  ghost predicate Later(g: Global, g': Global) {
    && Reachable(g') && g.signed <= g'.signed && g'.nodes.Keys == g.nodes.Keys
    && (forall qc :: Verifies(4, g.certs, qc) ==> Verifies(4, g'.certs, qc))
    && (forall h :: h in g.store ==> h in g'.store && g'.store[h] == g.store[h])
    && (forall p, m :: p in g.nodes && m in g.nodes[p].outbox ==> m in g'.nodes[p].outbox)
  }

  /** Only replica `p` changed its state. */
  ghost predicate Moves(g: Global, p: int, g': Global) {
    Later(g, g') && p in g.nodes && forall q :: q in g.nodes && q != p ==> g'.nodes[q] == g.nodes[q]
  }

  lemma MovesOn(g: Global, p: int, g1: Global, g2: Global)
    requires Moves(g, p, g1) && Moves(g1, p, g2)
    ensures Moves(g, p, g2)
  {
  }

  ghost predicate Grows(c: Scene, c': Scene) {
    && (forall qc :: Verifies(4, c.certs, qc) ==> Verifies(4, c'.certs, qc))
    && (forall h :: h in c.store ==> h in c'.store && c'.store[h] == c.store[h])
    && (forall m :: m in c.s.outbox ==> m in c'.s.outbox)
  }

  lemma Perform(g: Global, p: int, call: Call, trail: seq<Action>, c': Scene) returns (g': Global)
    requires Reachable(g) && p in g.nodes && Answers(4, SceneOf(g, p), call, trail, c') && Grows(SceneOf(g, p), c')
    requires CountsGenuine(g.signed, trail) && (call.Deliver? ==> Arrives(FOUR, g, p, call.msg))
    ensures Moves(g, p, g') && SceneOf(g', p) == c'
  {
    AnswersLeads(4, SceneOf(g, p), call, trail, c');
    g' := CarriedOut(FOUR, g, p, trail, c');
    Extend(g, Calls(p, call, trail), g');
  }

  /** A message of the replica's view is counted or handled. */
  lemma PerformTake(g: Global, p: int, msg: Message, trail: seq<Action>, c': Scene) returns (g': Global)
    requires Reachable(g) && p in g.nodes && TakesBy(4, SceneOf(g, p), msg, trail, c') && Grows(SceneOf(g, p), c')
    requires 0 <= msg.sender < 4 && msg.kind != NewView && msg.view == g.nodes[p].view
    requires CountsGenuine(g.signed, trail) && Arrives(FOUR, g, p, msg)
    ensures Moves(g, p, g') && SceneOf(g', p) == c'
  {
    g' := Perform(g, p, Deliver(msg), trail, c');
  }

  lemma PerformCount(g: Global, p: int, msg: Message, c': Scene) returns (g': Global)
    requires Reachable(g) && p in g.nodes && msg.isVote && c' == VoteHandled(4, SceneOf(g, p), msg) && Grows(SceneOf(g, p), c')
    requires 0 <= msg.sender < 4 && msg.kind != NewView && msg.view == g.nodes[p].view
    requires MessageGenuine(g.signed, msg) && Arrives(FOUR, g, p, msg)
    ensures Moves(g, p, g') && SceneOf(g', p) == c'
  {
    g' := PerformTake(g, p, msg, [Count(msg)], c');
  }

  /** A report for the replica's view. */
  lemma PerformReport(g: Global, p: int, msg: Message, high: Option<QC>, c': Scene) returns (g': Global)
    requires Reachable(g) && p in g.nodes && ReportsBy(4, SceneOf(g, p), msg, [Keep(msg), Propose(high)], c') && Grows(SceneOf(g, p), c')
    requires 0 <= msg.sender < 4 && msg.kind == NewView && Arrives(FOUR, g, p, msg)
    ensures Moves(g, p, g') && SceneOf(g', p) == c'
  {
    g' := Perform(g, p, Deliver(msg), [Keep(msg), Propose(high)], c');
  }

  // ---------- where a replica stands ----------

  /** What the run needs to know of a replica. `reported` are the views it holds NEW-VIEWs for, `counted` the
      phases and views it holds votes for. */
  datatype Place = Place(
    id: int, view: int, prepareQC: Option<QC>, lock: Option<(int, Hash)>, last: Hash, voted: set<(Kind, int)>,
    future: map<int, seq<Message>>, reported: set<int>, counted: set<(Kind, int)>, proposed: set<int>,
    pending: seq<Command>, known: set<string>)

  function Lock(s: NodeState): Option<(int, Hash)> {
    if s.locked.None? then None else Some((s.locked.value.view, s.locked.value.hash))
  }

  function Counted(s: NodeState): set<(Kind, int)> {
    set key | key in s.votes.Keys + s.formed :: (key.kind, key.view)
  }

  function PlaceOf(s: NodeState): Place {
    Place(s.id, s.view, s.prepareQC, Lock(s), s.lastExecuted, s.voted.Keys, s.future, s.newViews.Keys, Counted(s), s.proposed,
          s.pending, s.known)
  }

  function Start(id: int): Place {
    Place(id, 1, None, None, Genesis, {}, map[], {}, {}, {}, [], {})
  }

  function Voting(p: Place, kind: Kind, view: int): Place {
    p.(voted := p.voted + {(kind, view)})
  }

  lemma NewNodeStarts(id: int)
    ensures PlaceOf(NewNode(id)) == Start(id)
  {
  }

  // ---------- nodes that anybody can obtain ----------

  /** The store holds the node and its ancestors, so that any replica can obtain it. */
  ghost predicate Available(store: Tree, h: Hash) {
    Obtainable(map[], store, h)
  }

  /** A hash that a vote can be for. */
  ghost predicate Proper(store: Tree, h: Hash) {
    h.Digest? && h in store && h.parent != Text("") && h.cmd.id != "" && Available(store, h)
  }

  lemma {:induction false} AvailableLater(store: Tree, store': Tree, h: Hash)
    requires Available(store, h) && forall x :: x in store ==> x in store' && store'[x] == store[x]
    ensures Available(store', h)
    decreases h
  {
    if h != Genesis {
      AvailableLater(store, store', h.parent);
    }
  }

  lemma {:induction false} AvailableToAll(tree: Tree, store: Tree, h: Hash)
    requires Available(store, h)
    ensures Obtainable(tree, store, h)
    decreases h
  {
    if h != Genesis {
      AvailableToAll(tree, store, h.parent);
    }
  }

  lemma ProperLater(g: Global, g': Global, h: Hash)
    requires Later(g, g') && Proper(g.store, h)
    ensures Proper(g'.store, h)
  {
    AvailableLater(g.store, g'.store, h);
  }

  /** Storing a node that is not there yet, or already well stored, makes it proper. */
  lemma StoredProper(store: Tree, node: TreeNode)
    requires node.hash == HashOf(node) && node.parent != Text("") && node.cmd.id != "" && Available(store, node.parent)
    requires node.hash !in store || Available(store, node.hash)
    ensures Proper(Stored(store, node), node.hash)
  {
    var store' := Stored(store, node);
    AvailableLater(store, store', node.parent);
    if node.hash in store {
      AvailableLater(store, store', node.hash);
    }
  }

  // ---------- votes ----------

  function ShareFor(p: int, kind: Kind, view: int, h: Hash): Share {
    Share(p, SignedBy(Vote(p, kind, view, h)))
  }

  predicate IsVoteFor(m: Message, p: int, kind: Kind, view: int, h: Hash) {
    && m.isVote && m.sender == p && m.kind == kind && m.view == view && m.justify.None?
    && m.sig == Some(ShareFor(p, kind, view, h)) && m.node.Some? && m.node.value.hash == h == HashOf(m.node.value)
  }

  /** The replica has sent this vote to `leader`. */
  ghost predicate VoteOut(s: NodeState, leader: int, kind: Kind, view: int, h: Hash) {
    exists m :: To(leader, m) in s.outbox && IsVoteFor(m, s.id, kind, view, h)
  }

  lemma VoteOutSigned(g: Global, p: int, leader: int, kind: Kind, view: int, h: Hash)
    requires Reachable(g) && p in g.nodes && VoteOut(g.nodes[p], leader, kind, view, h) && g.nodes[p].id == p
    ensures Vote(p, kind, view, h) in g.signed
  {
    ReachableOk(g);
    assert NodeOk(FOUR, g.signed, p, g.nodes[p]);
    var m :| To(leader, m) in g.nodes[p].outbox && IsVoteFor(m, p, kind, view, h);
    assert Vote(p, kind, view, h) in VotesIn(g.nodes[p].outbox);
  }

  lemma VoteOutLater(g: Global, g': Global, p: int, leader: int, kind: Kind, view: int, h: Hash)
    requires Later(g, g') && p in g.nodes && VoteOut(g.nodes[p], leader, kind, view, h) && g'.nodes[p].id == g.nodes[p].id
    ensures VoteOut(g'.nodes[p], leader, kind, view, h)
  {
    var m :| To(leader, m) in g.nodes[p].outbox && IsVoteFor(m, g.nodes[p].id, kind, view, h);
    assert To(leader, m) in g'.nodes[p].outbox;
  }

  ghost predicate IsQC(g: Global, qc: QC, kind: Kind, view: int, h: Hash) {
    Verifies(4, g.certs, qc) && qc.kind == kind && qc.view == view && qc.hash == h
  }

  /** The vote is cast and sent, and nothing else happens but a lookup in the tree. */
  lemma CastSends(c: Scene, kind: Kind, view: int, h: Hash, leader: int)
    requires TreeOk(c) && MayVote(c, kind, view, h) && h != Genesis
    ensures var c' := VoteCast(c, kind, view, h, leader);
            && c'.store == c.store && c'.certs == c.certs && Grows(c, c')
            && PlaceOf(c'.s) == Voting(PlaceOf(c.s), kind, view) && VoteOut(c'.s, leader, kind, view, h)
  {
    EnsuredKeeps(c, h);
    var c1 := Ensured(c, h);
    var c' := VoteCast(c, kind, view, h, leader);
    var m := VoteMessage(c1.s, kind, view, h);
    assert To(leader, m) == c'.s.outbox[|c1.s.outbox|];
    assert IsVoteFor(m, c.s.id, kind, view, h);
  }

  // ---------- entering a view ----------

  function NewViewMessage(p: int, view: int, qc: Option<QC>): Message {
    Message(NewView, view, None, qc, p, None, false)
  }

  lemma ProposesNothing(c: Scene)
    requires c.s.view !in c.s.newViews
    ensures Acts(4, c, Propose(None), c)
  {
  }

  lemma EntersIdle(c: Scene, view: int)
    requires view > c.s.view && view !in c.s.newViews && Batch(c.s, view) == []
    ensures EntersBy(4, c, view, [Enter(view), Propose(None)], Entered(4, c, view))
  {
    var c' := Entered(4, c, view);
    ProposesNothing(c');
    EntersOn(4, c, view, [], c', None, c');
    assert [Enter(view)] + [] + [Propose(None)] == [Enter(view), Propose(None)];
  }

  lemma EnteredPlace(c: Scene, view: int)
    requires view > c.s.view >= 0
    ensures var c' := Entered(4, c, view);
            && c'.store == c.store && c'.certs == c.certs && Grows(c, c')
            && PlaceOf(c'.s) == PlaceOf(c.s).(view := view, future := c.s.future - {view})
            && To(Leader(4, view), NewViewMessage(c.s.id, c.s.view, c.s.prepareQC)) in c'.s.outbox
  {
    var c' := Entered(4, c, view);
    assert c'.s.outbox[|c.s.outbox|] == To(Leader(4, view), NewViewMessage(c.s.id, c.s.view, c.s.prepareQC));
  }

  /** The timeout of its view takes a replica with nothing buffered to the next one. */
  lemma EnterAt(g: Global, p: int, at: Place) returns (g': Global)
    requires Reachable(g) && p in g.nodes && PlaceOf(g.nodes[p]) == at && at.future == map[] && at.view >= 0
    requires at.view + 1 !in at.reported
    ensures Moves(g, p, g') && g'.store == g.store && PlaceOf(g'.nodes[p]) == at.(view := at.view + 1)
    ensures To(Leader(4, at.view + 1), NewViewMessage(at.id, at.view, at.prepareQC)) in g'.nodes[p].outbox
  {
    var c := SceneOf(g, p);
    EntersFrom(c, at);
    g' := Perform(g, p, Timeout(at.view), [Enter(at.view + 1), Propose(None)], Entered(4, c, at.view + 1));
  }

  lemma ClientAt(g: Global, p: int, at: Place, cmd: Command) returns (g': Global)
    requires Reachable(g) && p in g.nodes && PlaceOf(g.nodes[p]) == at && at.view !in at.reported && cmd.id != "" && cmd.id !in at.known
    ensures Moves(g, p, g') && g'.store == g.store
    ensures PlaceOf(g'.nodes[p]) == at.(pending := at.pending + [cmd], known := at.known + {cmd.id})
  {
    var c' := Queued(SceneOf(g, p), cmd);
    ProposesNothing(c');
    g' := Perform(g, p, Client(cmd), [Queue(cmd), Propose(None)], c');
  }

  lemma BufferAt(g: Global, p: int, msg: Message) returns (g': Global)
    requires Reachable(g) && p in g.nodes && msg.view > g.nodes[p].view && 0 <= msg.sender < 4 && msg.kind != NewView
    requires Arrives(FOUR, g, p, msg)
    ensures Moves(g, p, g') && g'.store == g.store && g'.certs == g.certs && g'.nodes[p] == Buffered(SceneOf(g, p), msg).s
  {
    g' := Perform(g, p, Deliver(msg), [Buffer(msg)], Buffered(SceneOf(g, p), msg));
  }

  // ---------- a leader's messages ----------

  function PhaseMessage(kind: Kind, view: int, qc: QC): Message {
    Message(kind, view, None, Some(qc), Leader(4, view), None, false)
  }

  function ProposalMessage(view: int, node: TreeNode, justify: Option<QC>): Message {
    Message(Prepare, view, Some(node), justify, Leader(4, view), None, false)
  }

  /** Delivering a leader's message that decides nothing. */
  lemma TakenAlone(c: Scene, msg: Message)
    requires !msg.isVote && msg.kind != Decide
    ensures TakesBy(4, c, msg, [Handle(msg, c.s.view)], ReplicaHandled(4, c, msg))
  {
  }

  lemma TakeAt(g: Global, p: int, msg: Message, c': Scene) returns (g': Global)
    requires Reachable(g) && p in g.nodes && g.nodes[p].view == msg.view >= 1 && Arrives(FOUR, g, p, msg)
    requires !msg.isVote && msg.kind != Decide && msg.kind != NewView && msg.sender == Leader(4, msg.view)
    requires c' == ReplicaHandled(4, SceneOf(g, p), msg) && Grows(SceneOf(g, p), c')
    ensures Moves(g, p, g') && SceneOf(g', p) == c'
  {
    TakenAlone(SceneOf(g, p), msg);
    g' := PerformTake(g, p, msg, [Handle(msg, msg.view)], c');
  }

  /** A PRE-COMMIT newer than the certificate held is kept and voted for. */
  lemma PreCommitVotes(c: Scene, view: int, qc: QC)
    requires TreeOk(c) && PhaseOk(4, c, PhaseMessage(PreCommit, view, qc), Prepare) && (PreCommit, view) !in c.s.voted && qc.hash != Genesis
    requires c.s.prepareQC.Some? ==> c.s.prepareQC.value.view < view
    ensures var c' := ReplicaHandled(4, c, PhaseMessage(PreCommit, view, qc));
            && c'.store == c.store && c'.certs == c.certs && Grows(c, c')
            && PlaceOf(c'.s) == Voting(PlaceOf(c.s), PreCommit, view).(prepareQC := Some(qc))
            && VoteOut(c'.s, Leader(4, view), PreCommit, view, qc.hash)
  {
    EnsuredKeeps(c, qc.hash);
    var c1 := Ensured(c, qc.hash);
    var c2 := c1.(s := c1.s.(prepareQC := Some(qc), phase := PreCommit));
    assert CanEnsure(c2, qc.hash);
    CastSends(c2, PreCommit, view, qc.hash, Leader(4, view));
  }

  lemma PreCommitAt(g: Global, p: int, at: Place, h: Hash, qc: QC) returns (g': Global)
    requires Reachable(g) && p in g.nodes && PlaceOf(g.nodes[p]) == at && at.view >= 1 && IsQC(g, qc, Prepare, at.view, h) && Proper(g.store, h)
    requires (PreCommit, at.view) !in at.voted && (at.prepareQC.Some? ==> at.prepareQC.value.view < at.view)
    requires Arrives(FOUR, g, p, PhaseMessage(PreCommit, at.view, qc))
    ensures Moves(g, p, g') && g'.store == g.store && PlaceOf(g'.nodes[p]) == Voting(at, PreCommit, at.view).(prepareQC := Some(qc))
    ensures VoteOut(g'.nodes[p], Leader(4, at.view), PreCommit, at.view, h)
  {
    SceneOk(g, p);
    AvailableToAll(g.nodes[p].tree, g.store, h);
    var c, msg := SceneOf(g, p), PhaseMessage(PreCommit, at.view, qc);
    PreCommitVotes(c, at.view, qc);
    g' := TakeAt(g, p, msg, ReplicaHandled(4, c, msg));
  }

  /** A COMMIT moves the lock to its view, whatever the lock was, and is voted for. */
  lemma CommitLocks(c: Scene, view: int, qc: QC)
    requires TreeOk(c) && PhaseOk(4, c, PhaseMessage(Commit, view, qc), PreCommit) && (Commit, view) !in c.s.voted && qc.hash != Genesis
    ensures var c' := ReplicaHandled(4, c, PhaseMessage(Commit, view, qc));
            && TreeOk(c') && c'.store == c.store && c'.certs == c.certs && Grows(c, c')
            && PlaceOf(c'.s) == Voting(PlaceOf(c.s), Commit, view).(lock := Some((view, qc.hash)))
            && VoteOut(c'.s, Leader(4, view), Commit, view, qc.hash)
  {
    EnsuredKeeps(c, qc.hash);
    CommitEffect(4, c, PhaseMessage(Commit, view, qc));
    var c1 := Ensured(c, qc.hash);
    var c2 := c1.(s := c1.s.(locked := Some(qc), phase := Commit));
    assert CanEnsure(c2, qc.hash);
    CastSends(c2, Commit, view, qc.hash, Leader(4, view));
  }

  lemma CommitAt(g: Global, p: int, at: Place, h: Hash, qc: QC) returns (g': Global)
    requires Reachable(g) && p in g.nodes && PlaceOf(g.nodes[p]) == at && at.view >= 1 && IsQC(g, qc, PreCommit, at.view, h) && Proper(g.store, h)
    requires (Commit, at.view) !in at.voted && Arrives(FOUR, g, p, PhaseMessage(Commit, at.view, qc))
    ensures Moves(g, p, g') && g'.store == g.store && PlaceOf(g'.nodes[p]) == Voting(at, Commit, at.view).(lock := Some((at.view, h)))
    ensures VoteOut(g'.nodes[p], Leader(4, at.view), Commit, at.view, h)
  {
    SceneOk(g, p);
    AvailableToAll(g.nodes[p].tree, g.store, h);
    var c, msg := SceneOf(g, p), PhaseMessage(Commit, at.view, qc);
    CommitLocks(c, at.view, qc);
    g' := TakeAt(g, p, msg, ReplicaHandled(4, c, msg));
  }

  lemma ExecutesFully(c: Scene, h: Hash)
    requires TreeOk(c) && LedgerOk(c.s) && Known(c.s.tree, h) && Extends(h, c.s.lastExecuted)
    ensures var c' := ExecutedThrough(c, h);
            Executes(c, c', h) && c'.s.lastExecuted == h && c'.store == c.store
  {
    ExecutedEffect(c, h);
    EnsuredKeeps(c, h);
  }

  lemma ExecutedPlace(c: Scene, c': Scene, h: Hash)
    requires Executes(c, c', h) && c'.s.lastExecuted == h
    ensures PlaceOf(c'.s) == PlaceOf(c.s).(last := h) && TreeOk(c') && c'.certs == c.certs && c'.s.outbox == c.s.outbox
  {
  }

  /** A DECIDE for a descendant of the last executed node executes it. */
  lemma DecideExecutes(c: Scene, view: int, qc: QC)
    requires TreeOk(c) && LedgerOk(c.s) && PhaseOk(4, c, PhaseMessage(Decide, view, qc), Commit) && Extends(qc.hash, c.s.lastExecuted)
    ensures var msg := PhaseMessage(Decide, view, qc);
            var c' := ReplicaHandled(4, c, msg);
            && Decides(4, c, msg) && TreeOk(c') && c'.store == c.store && c'.certs == c.certs && c'.s.outbox == c.s.outbox
            && PlaceOf(c'.s) == PlaceOf(c.s).(last := qc.hash)
  {
    EnsuredKeeps(c, qc.hash);
    var c1 := Ensured(c, qc.hash);
    var c2 := c1.(s := c1.s.(phase := Decide));
    ExecutesFully(c2, qc.hash);
    ExecutedPlace(c2, ExecutedThrough(c2, qc.hash), qc.hash);
    assert PlaceOf(c2.s) == PlaceOf(c.s);
  }

  /** A DECIDE that executes is followed by the actions of the view change. */
  lemma TakenThenEntered(c: Scene, msg: Message, more: seq<Action>, c': Scene)
    requires !msg.isVote && Decides(4, c, msg) && EntersBy(4, ReplicaHandled(4, c, msg), msg.view + 1, more, c')
    ensures TakesBy(4, c, msg, [Handle(msg, c.s.view)] + more, c')
  {
    assert ([Handle(msg, c.s.view)] + more)[1..] == more;
  }

  lemma EntersFrom(c: Scene, at: Place)
    requires PlaceOf(c.s) == at && at.future == map[] && at.view >= 0 && at.view + 1 !in at.reported
    ensures var c' := Entered(4, c, at.view + 1);
            && EntersBy(4, c, at.view + 1, [Enter(at.view + 1), Propose(None)], c')
            && c'.store == c.store && c'.certs == c.certs && Grows(c, c') && PlaceOf(c'.s) == at.(view := at.view + 1)
            && To(Leader(4, at.view + 1), NewViewMessage(at.id, at.view, at.prepareQC)) in c'.s.outbox
  {
    EntersIdle(c, at.view + 1);
    EnteredPlace(c, at.view + 1);
    assert c.s.future - {at.view + 1} == map[];
  }

  lemma DecideAt(g: Global, p: int, at: Place, h: Hash, qc: QC) returns (g': Global)
    requires Reachable(g) && p in g.nodes && PlaceOf(g.nodes[p]) == at && at.view >= 1 && IsQC(g, qc, Commit, at.view, h) && Proper(g.store, h)
    requires Extends(h, at.last) && at.future == map[] && at.view + 1 !in at.reported
    requires Arrives(FOUR, g, p, PhaseMessage(Decide, at.view, qc))
    ensures Moves(g, p, g') && g'.store == g.store && PlaceOf(g'.nodes[p]) == at.(view := at.view + 1, last := h)
  {
    var msg := PhaseMessage(Decide, at.view, qc);
    SceneOk(g, p);
    var c' := DecidedAt(SceneOf(g, p), at, qc);
    g' := PerformTake(g, p, msg, [Handle(msg, at.view), Enter(at.view + 1), Propose(None)], c');
  }

  /** A replica with nothing buffered executes the branch and enters the next view. */
  lemma DecidedAt(c: Scene, at: Place, qc: QC) returns (c': Scene)
    requires TreeOk(c) && LedgerOk(c.s) && PlaceOf(c.s) == at && at.view >= 1 && qc.kind == Commit && qc.view == at.view && Verifies(4, c.certs, qc)
    requires Available(c.store, qc.hash) && Extends(qc.hash, at.last) && at.future == map[] && at.view + 1 !in at.reported
    ensures var msg := PhaseMessage(Decide, at.view, qc);
            TakesBy(4, c, msg, [Handle(msg, at.view), Enter(at.view + 1), Propose(None)], c') && Grows(c, c')
    ensures c'.store == c.store && PlaceOf(c'.s) == at.(view := at.view + 1, last := qc.hash)
  {
    var c1 := DecidesTo(c, at, qc);
    EntersFrom(c1, at.(last := qc.hash));
    c' := Entered(4, c1, at.view + 1);
    DecidesThenEnters(c, PhaseMessage(Decide, at.view, qc), c1, c');
  }

  lemma DecidesTo(c: Scene, at: Place, qc: QC) returns (c1: Scene)
    requires TreeOk(c) && LedgerOk(c.s) && PlaceOf(c.s) == at && qc.kind == Commit && qc.view == at.view && Verifies(4, c.certs, qc)
    requires Available(c.store, qc.hash) && Extends(qc.hash, at.last)
    ensures Decides(4, c, PhaseMessage(Decide, at.view, qc)) && c1 == ReplicaHandled(4, c, PhaseMessage(Decide, at.view, qc))
    ensures c1.store == c.store && c1.certs == c.certs && c1.s.outbox == c.s.outbox && PlaceOf(c1.s) == at.(last := qc.hash)
  {
    AvailableToAll(c.s.tree, c.store, qc.hash);
    DecideExecutes(c, at.view, qc);
    c1 := ReplicaHandled(4, c, PhaseMessage(Decide, at.view, qc));
  }

  lemma DecidesThenEnters(c: Scene, msg: Message, c1: Scene, c': Scene)
    requires !msg.isVote && Decides(4, c, msg) && c1 == ReplicaHandled(4, c, msg)
    requires EntersBy(4, c1, msg.view + 1, [Enter(msg.view + 1), Propose(None)], c')
    ensures TakesBy(4, c, msg, [Handle(msg, c.s.view), Enter(msg.view + 1), Propose(None)], c')
  {
    var more := [Enter(msg.view + 1), Propose(None)];
    TakenThenEntered(c, msg, more, c');
    assert [Handle(msg, c.s.view)] + more == [Handle(msg, c.s.view), Enter(msg.view + 1), Propose(None)];
  }

  // ---------- proposals ----------

  lemma SafetyHolds(c: Scene, node: TreeNode, justify: Option<QC>)
    requires TreeOk(c) && node.hash in c.s.tree && (c.s.locked.Some? ==> Extends(node.hash, c.s.locked.value.hash))
    ensures SafeNode(c, node.hash, justify) && Kept(c, SafetyChecked(c, node.hash)) && SafetyChecked(c, node.hash).store == c.store
  {
    if c.s.locked.Some? {
      ClosedHoldsAncestors(c.s.tree, node.hash);
      ExtendsFromIsExtends(c, node.hash, c.s.locked.value.hash);
      SearchedKeeps(c, node.hash, c.s.locked.value.hash);
    }
  }

  /** A vote was cast and sent to the leader; the store is `store`. */
  ghost predicate Votes(c: Scene, c': Scene, store: Tree, view: int, h: Hash, leader: int) {
    && c'.store == store && c'.certs == c.certs && (forall m :: m in c.s.outbox ==> m in c'.s.outbox)
    && PlaceOf(c'.s) == Voting(PlaceOf(c.s), Prepare, view) && VoteOut(c'.s, leader, Prepare, view, h)
  }

  lemma CheckedVotes(c: Scene, node: TreeNode, justify: Option<QC>, view: int, sender: int)
    requires TreeOk(c) && node.hash == HashOf(node) && node.hash in c.s.tree && node.parent == JustifiedParent(justify)
    requires justify.Some? ==> justify.value.kind == Prepare && justify.value.view < view && Verifies(4, c.certs, justify.value)
    requires c.s.locked.Some? ==> Extends(node.hash, c.s.locked.value.hash)
    requires (Prepare, view) !in c.s.voted
    ensures Votes(c, PrepareChecked(4, c, node, justify, view, sender), c.store, view, node.hash, sender)
  {
    assert Known(c.s.tree, node.parent);
    EnsuredKeeps(c, node.parent);
    var c1 := if justify.Some? then Ensured(c, node.parent) else c;
    SafetyHolds(c1, node, justify);
    var c2 := SafetyChecked(c1, node.hash);
    var c3 := c2.(s := c2.s.(phase := Prepare));
    assert Known(c3.s.tree, node.hash) && Kept(c, c3);
    assert PlaceOf(c3.s) == PlaceOf(c.s);
    CastSends(c3, Prepare, view, node.hash, sender);
  }

  /** A proposal that extends the lock, or meets no lock, is voted for. */
  lemma PrepareVotes(c: Scene, view: int, node: TreeNode, justify: Option<QC>)
    requires TreeOk(c) && Acceptable(c, node) && node.parent == JustifiedParent(justify)
    requires justify.Some? ==> justify.value.kind == Prepare && justify.value.view < view && Verifies(4, c.certs, justify.value)
    requires c.s.locked.Some? ==> Extends(node.hash, c.s.locked.value.hash)
    requires (Prepare, view) !in c.s.voted
    ensures Votes(c, ReplicaHandled(4, c, ProposalMessage(view, node, justify)), Stored(c.store, node), view, node.hash, Leader(4, view))
  {
    AcceptedKeeps(c, node);
    var c0 := Accepted(c, node);
    assert PlaceOf(c0.s) == PlaceOf(c.s);
    CheckedVotes(c0, node, justify, view, Leader(4, view));
  }

  ghost predicate ProposalOk(g: Global, lock: Option<(int, Hash)>, view: int, node: TreeNode, justify: Option<QC>) {
    && node.hash == HashOf(node) && node.parent != Text("") && node.cmd.id != "" && Available(g.store, node.parent)
    && (justify.Some? ==> IsQC(g, justify.value, Prepare, justify.value.view, node.parent) && justify.value.view < view)
    && (justify.None? ==> node.parent == Genesis)
    && (lock.Some? ==> Extends(node.hash, lock.value.1))
  }

  lemma PrepareAt(g: Global, p: int, at: Place, node: TreeNode, justify: Option<QC>) returns (g': Global)
    requires Reachable(g) && p in g.nodes && PlaceOf(g.nodes[p]) == at && at.view >= 1 && (Prepare, at.view) !in at.voted
    requires ProposalOk(g, at.lock, at.view, node, justify) && Arrives(FOUR, g, p, ProposalMessage(at.view, node, justify))
    ensures Moves(g, p, g') && g'.store == Stored(g.store, node) && PlaceOf(g'.nodes[p]) == Voting(at, Prepare, at.view)
    ensures VoteOut(g'.nodes[p], Leader(4, at.view), Prepare, at.view, node.hash)
  {
    SceneOk(g, p);
    var c' := PreparedScene(SceneOf(g, p), at, node, justify);
    g' := TakeAt(g, p, ProposalMessage(at.view, node, justify), c');
  }

  lemma PreparedScene(c: Scene, at: Place, node: TreeNode, justify: Option<QC>) returns (c': Scene)
    requires TreeOk(c) && PlaceOf(c.s) == at && (Prepare, at.view) !in at.voted && node.hash == HashOf(node) && node.parent != Text("") && node.cmd.id != ""
    requires Available(c.store, node.parent) && node.parent == JustifiedParent(justify) && (at.lock.Some? ==> Extends(node.hash, at.lock.value.1))
    requires justify.Some? ==> justify.value.kind == Prepare && justify.value.view < at.view && Verifies(4, c.certs, justify.value)
    ensures c' == ReplicaHandled(4, c, ProposalMessage(at.view, node, justify)) && Grows(c, c')
    ensures c'.store == Stored(c.store, node) && PlaceOf(c'.s) == Voting(at, Prepare, at.view)
    ensures VoteOut(c'.s, Leader(4, at.view), Prepare, at.view, node.hash)
  {
    AvailableToAll(c.s.tree, c.store, node.parent);
    PrepareVotes(c, at.view, node, justify);
    c' := ReplicaHandled(4, c, ProposalMessage(at.view, node, justify));
  }

  // ---------- counting votes ----------

  /** The leader counts a vote that completes no quorum. */
  lemma CountsOne(c: Scene, msg: Message, p: int, kind: Kind, view: int, h: Hash)
    requires TreeOk(c) && IsVoteFor(msg, p, kind, view, h) && 0 <= p < 4 && c.s.view == view && Leader(4, view) == c.s.id
    requires (kind == Prepare || kind == PreCommit || kind == Commit) && Proper(c.store, h)
    requires var key := Key(kind, view, h); key !in c.s.formed && p !in VotesFor(c.s, key) && |VotesFor(c.s, key)| + 1 < 3
    ensures var key := Key(kind, view, h);
            var c' := VoteHandled(4, c, msg);
            && c'.store == c.store && c'.certs == c.certs && c'.s.outbox == c.s.outbox && c'.s.formed == c.s.formed
            && c'.s.votes == c.s.votes[key := VotesFor(c.s, key)[p := ShareFor(p, kind, view, h)]]
            && PlaceOf(c'.s) == PlaceOf(c.s).(counted := Counted(c.s) + {(kind, view)})
  {
    var key, share := Key(kind, view, h), ShareFor(p, kind, view, h);
    var c1 := VoteAccepted(c, msg, p, kind, view, h);
    ShareCounted(c, c1, VoteHandled(4, c, msg), key, share);
  }

  lemma ShareCounted(c: Scene, c1: Scene, c': Scene, key: Key, share: Share)
    requires c1 == c.(s := c.s.(tree := c1.s.tree)) && c' == VoteCounted(4, c1, key, share)
    requires ShareOk(4, share, key.kind, key.view, key.hash) && key !in c.s.formed
    requires share.signer !in VotesFor(c.s, key) && |VotesFor(c.s, key)| + 1 < 3
    ensures c'.store == c.store && c'.certs == c.certs && c'.s.outbox == c.s.outbox && c'.s.formed == c.s.formed
    ensures c'.s.votes == c.s.votes[key := VotesFor(c.s, key)[share.signer := share]]
    ensures PlaceOf(c'.s) == PlaceOf(c.s).(counted := Counted(c.s) + {(key.kind, key.view)})
  {
    AddsShare(c1, key, share);
    ShareFiled(c.s, c1.s.tree, key, VotesFor(c.s, key)[share.signer := share]);
  }

  lemma ShareFiled(s: NodeState, tree: Tree, key: Key, shares: map<int, Share>)
    ensures PlaceOf(s.(tree := tree, votes := s.votes[key := shares])) == PlaceOf(s).(counted := Counted(s) + {(key.kind, key.view)})
  {
    CountedPlace(s, s.(tree := tree, votes := s.votes[key := shares]), key);
  }

  /** The vote is well formed, so that its share is counted. */
  lemma VoteAccepted(c: Scene, msg: Message, p: int, kind: Kind, view: int, h: Hash) returns (c1: Scene)
    requires TreeOk(c) && IsVoteFor(msg, p, kind, view, h) && c.s.view == view && Leader(4, view) == c.s.id
    requires (kind == Prepare || kind == PreCommit || kind == Commit) && Proper(c.store, h)
    ensures VoteHandled(4, c, msg) == VoteCounted(4, c1, Key(kind, view, h), ShareFor(p, kind, view, h))
    ensures c1 == c.(s := c.s.(tree := c1.s.tree))
  {
    AcceptsVote(c, msg.node.value, h);
    c1 := Accepted(c, msg.node.value);
  }

  /** The node of a vote is known to the store already. */
  lemma AcceptsVote(c: Scene, node: TreeNode, h: Hash)
    requires TreeOk(c) && node.hash == HashOf(node) == h && Proper(c.store, h)
    ensures Acceptable(c, node) && Kept(c, Accepted(c, node)) && Accepted(c, node).store == c.store
    ensures Accepted(c, node).s == c.s.(tree := Accepted(c, node).s.tree)
  {
    AvailableToAll(c.s.tree, c.store, node.parent);
    AcceptedKeeps(c, node);
  }

  lemma AddsShare(c: Scene, key: Key, share: Share)
    requires ShareOk(4, share, key.kind, key.view, key.hash) && key !in c.s.formed
    requires share.signer !in VotesFor(c.s, key) && |VotesFor(c.s, key)| + 1 < 3
    ensures VoteCounted(4, c, key, share) == c.(s := c.s.(votes := c.s.votes[key := VotesFor(c.s, key)[share.signer := share]]))
  {
    var shares := VotesFor(c.s, key)[share.signer := share];
    assert |shares| == |VotesFor(c.s, key)| + 1;
  }

  lemma CountedMore(s: NodeState, s': NodeState, key: Key)
    requires s'.votes.Keys == s.votes.Keys + {key} && (s'.formed == s.formed || s'.formed == s.formed + {key})
    ensures Counted(s') == Counted(s) + {(key.kind, key.view)}
  {
    forall x | x in Counted(s) + {(key.kind, key.view)} ensures x in Counted(s') {
      if x in Counted(s) {
        var k :| k in s.votes.Keys + s.formed && x == (k.kind, k.view);
        assert k in s'.votes.Keys + s'.formed;
      } else {
        assert key in s'.votes.Keys + s'.formed;
      }
    }
  }

  lemma CountedPlace(s: NodeState, s': NodeState, key: Key)
    requires s' == s.(tree := s'.tree, phase := s'.phase, votes := s'.votes, formed := s'.formed, outbox := s'.outbox)
    requires s'.votes.Keys == s.votes.Keys + {key} && (s'.formed == s.formed || s'.formed == s.formed + {key})
    ensures PlaceOf(s') == PlaceOf(s).(counted := Counted(s) + {(key.kind, key.view)})
  {
    CountedMore(s, s', key);
  }

  function QCOf(kind: Kind, view: int, h: Hash, shares: map<int, Share>): QC {
    QC(kind, view, h, DigestOf(Record(kind, view, h, shares)))
  }

  /** The leader counts the vote that completes a quorum, and announces the certificate. */
  lemma CountsLast(c: Scene, msg: Message, p: int, kind: Kind, view: int, h: Hash)
    requires TreeOk(c) && IsVoteFor(msg, p, kind, view, h) && 0 <= p < 4 && c.s.view == view && Leader(4, view) == c.s.id
    requires (kind == Prepare || kind == PreCommit || kind == Commit) && Proper(c.store, h)
    requires var key := Key(kind, view, h);
             key !in c.s.formed && p !in VotesFor(c.s, key) && |VotesFor(c.s, key)| == 2 && SharesOk(4, VotesFor(c.s, key), kind, view, h)
    requires forall t :: t in c.certs ==> t == DigestOf(c.certs[t])
    ensures var qc := QCOf(kind, view, h, VotesFor(c.s, Key(kind, view, h))[p := ShareFor(p, kind, view, h)]);
            var c' := VoteHandled(4, c, msg);
            && c'.store == c.store && Grows(c, c') && Verifies(4, c'.certs, qc)
            && ToAll(PhaseMessage(NextKind(kind), view, qc)) in c'.s.outbox
            && PlaceOf(c'.s) == PlaceOf(c.s).(counted := Counted(c.s) + {(kind, view)})
  {
    var key := Key(kind, view, h);
    var c1 := VoteAccepted(c, msg, p, kind, view, h);
    var shares := VotesFor(c.s, key)[p := ShareFor(p, kind, view, h)];
    assert |shares| == 3;
    FormsQC(c1.(s := c1.s.(votes := c1.s.votes[key := shares])), key, shares);
    CountedPlace(c.s, VoteHandled(4, c, msg).s, key);
  }

  lemma FormsQC(c: Scene, key: Key, shares: map<int, Share>)
    requires key in c.s.votes && c.s.votes[key] == shares && |shares| == 3 && SharesOk(4, shares, key.kind, key.view, key.hash)
    requires Leader(4, key.view) == c.s.id && forall t :: t in c.certs ==> t == DigestOf(c.certs[t])
    ensures var qc := QCOf(key.kind, key.view, key.hash, shares);
            var c' := Formed(4, c, key);
            && c'.store == c.store && Grows(c, c') && Verifies(4, c'.certs, qc)
            && ToAll(PhaseMessage(NextKind(key.kind), key.view, qc)) in c'.s.outbox
            && c'.s == c.s.(formed := c.s.formed + {key}, phase := c'.s.phase, outbox := c'.s.outbox)
  {
    var record, qc := Record(key.kind, key.view, key.hash, shares), QCOf(key.kind, key.view, key.hash, shares);
    var c' := Formed(4, c, key);
    assert c'.certs == Registered(c.certs, record);
    forall other | Verifies(4, c.certs, other) ensures Verifies(4, c'.certs, other) {
      CombinedVerifies(4, c.certs, record, other);
    }
    CombinedVerifies(4, c.certs, record, qc);
    assert c'.s.outbox[|c.s.outbox|] == ToAll(PhaseMessage(NextKind(key.kind), key.view, qc));
  }

  /** Replica `p` has sent this vote to `leader`, or is faulty and has signed it. */
  ghost predicate Cast(g: Global, p: int, leader: int, kind: Kind, view: int, h: Hash) {
    if p == 3 then Vote(3, kind, view, h) in g.signed else p in g.nodes && g.nodes[p].id == p && VoteOut(g.nodes[p], leader, kind, view, h)
  }

  lemma CastLater(g: Global, g': Global, p: int, leader: int, kind: Kind, view: int, h: Hash)
    requires Reachable(g) && Later(g, g') && Cast(g, p, leader, kind, view, h)
    ensures Cast(g', p, leader, kind, view, h)
  {
    if p != 3 {
      SceneOk(g', p);
      VoteOutLater(g, g', p, leader, kind, view, h);
    }
  }

  lemma BringVote(g: Global, p: int, leader: int, kind: Kind, view: int, h: Hash) returns (m: Message)
    requires Reachable(g) && Cast(g, p, leader, kind, view, h) && h.Digest?
    ensures IsVoteFor(m, p, kind, view, h) && Arrives(FOUR, g, leader, m) && MessageGenuine(g.signed, m)
  {
    if p == 3 {
      m := Message(kind, view, Some(TreeNode(h.parent, h.cmd, h, view)), None, 3, Some(ShareFor(3, kind, view, h)), true);
    } else {
      VoteOutSigned(g, p, leader, kind, view, h);
      m :| To(leader, m) in g.nodes[p].outbox && IsVoteFor(m, p, kind, view, h);
    }
  }

  ghost predicate MayCount(g: Global, l: int, at: Place, kind: Kind, h: Hash) {
    && Reachable(g) && l in g.nodes && PlaceOf(g.nodes[l]) == at && at.view >= 1 && at.id == l == Leader(4, at.view)
    && (kind == Prepare || kind == PreCommit || kind == Commit) && Proper(g.store, h) && Key(kind, at.view, h) !in g.nodes[l].formed
  }

  lemma CountAt(g: Global, l: int, at: Place, kind: Kind, h: Hash, p: int) returns (g': Global)
    requires MayCount(g, l, at, kind, h) && Cast(g, p, l, kind, at.view, h) && 0 <= p < 4
    requires var shares := VotesFor(g.nodes[l], Key(kind, at.view, h)); p !in shares && |shares| + 1 < 3
    ensures Moves(g, l, g') && g'.store == g.store && MayCount(g', l, at.(counted := at.counted + {(kind, at.view)}), kind, h)
    ensures VotesFor(g'.nodes[l], Key(kind, at.view, h)) == VotesFor(g.nodes[l], Key(kind, at.view, h))[p := ShareFor(p, kind, at.view, h)]
  {
    g' := CountDelivered(g, l, at, kind, h, p);
  }

  lemma CountDelivered(g: Global, l: int, at: Place, kind: Kind, h: Hash, p: int) returns (g': Global)
    requires MayCount(g, l, at, kind, h) && Cast(g, p, l, kind, at.view, h) && 0 <= p < 4
    requires var shares := VotesFor(g.nodes[l], Key(kind, at.view, h)); p !in shares && |shares| + 1 < 3
    ensures Moves(g, l, g') && g'.store == g.store && PlaceOf(g'.nodes[l]) == at.(counted := at.counted + {(kind, at.view)})
    ensures g'.nodes[l].formed == g.nodes[l].formed
    ensures VotesFor(g'.nodes[l], Key(kind, at.view, h)) == VotesFor(g.nodes[l], Key(kind, at.view, h))[p := ShareFor(p, kind, at.view, h)]
  {
    var m := BringVote(g, p, l, kind, at.view, h);
    SceneOk(g, l);
    var c' := CountedScene(SceneOf(g, l), at, kind, h, p, m);
    g' := PerformCount(g, l, m, c');
  }

  lemma CountedScene(c: Scene, at: Place, kind: Kind, h: Hash, p: int, m: Message) returns (c': Scene)
    requires TreeOk(c) && PlaceOf(c.s) == at && at.id == Leader(4, at.view) && (kind == Prepare || kind == PreCommit || kind == Commit)
    requires Proper(c.store, h) && IsVoteFor(m, p, kind, at.view, h) && 0 <= p < 4
    requires var key := Key(kind, at.view, h); key !in c.s.formed && p !in VotesFor(c.s, key) && |VotesFor(c.s, key)| + 1 < 3
    ensures c' == VoteHandled(4, c, m) && Grows(c, c') && c'.store == c.store && c'.s.formed == c.s.formed
    ensures PlaceOf(c'.s) == at.(counted := at.counted + {(kind, at.view)})
    ensures VotesFor(c'.s, Key(kind, at.view, h)) == VotesFor(c.s, Key(kind, at.view, h))[p := ShareFor(p, kind, at.view, h)]
  {
    CountsOne(c, m, p, kind, at.view, h);
    c' := VoteHandled(4, c, m);
  }

  lemma CountLastAt(g: Global, l: int, at: Place, kind: Kind, h: Hash, p: int) returns (g': Global, qc: QC)
    requires MayCount(g, l, at, kind, h) && Cast(g, p, l, kind, at.view, h) && 0 <= p < 4
    requires var shares := VotesFor(g.nodes[l], Key(kind, at.view, h)); p !in shares && |shares| == 2 && SharesOk(4, shares, kind, at.view, h)
    ensures Moves(g, l, g') && g'.store == g.store && PlaceOf(g'.nodes[l]) == at.(counted := at.counted + {(kind, at.view)})
    ensures IsQC(g', qc, kind, at.view, h) && ToAll(PhaseMessage(NextKind(kind), at.view, qc)) in g'.nodes[l].outbox
  {
    SceneOk(g, l);
    var m := BringVote(g, p, l, kind, at.view, h);
    var c := SceneOf(g, l);
    CountsLast(c, m, p, kind, at.view, h);
    qc := QCOf(kind, at.view, h, VotesFor(c.s, Key(kind, at.view, h))[p := ShareFor(p, kind, at.view, h)]);
    g' := PerformCount(g, l, m, VoteHandled(4, c, m));
  }

  /** The leader collects three votes and announces their certificate. */
  lemma CollectAt(g: Global, l: int, at: Place, kind: Kind, h: Hash, x: int, y: int) returns (g': Global, qc: QC)
    requires Reachable(g) && l in g.nodes && PlaceOf(g.nodes[l]) == at && at.view >= 1 && at.id == l == Leader(4, at.view)
    requires (kind == Prepare || kind == PreCommit || kind == Commit) && Proper(g.store, h) && (kind, at.view) !in at.counted
    requires Cast(g, x, l, kind, at.view, h) && Cast(g, y, l, kind, at.view, h) && Cast(g, 3, l, kind, at.view, h)
    requires 0 <= x < 3 && 0 <= y < 3 && x != y
    ensures Moves(g, l, g') && g'.store == g.store && PlaceOf(g'.nodes[l]) == at.(counted := at.counted + {(kind, at.view)})
    ensures IsQC(g', qc, kind, at.view, h) && ToAll(PhaseMessage(NextKind(kind), at.view, qc)) in g'.nodes[l].outbox
  {
    var at1 := at.(counted := at.counted + {(kind, at.view)});
    Uncounted(g.nodes[l], Key(kind, at.view, h));
    var g2 := CountTwo(g, l, at, kind, h, x, y);
    CastLater(g, g2, 3, l, kind, at.view, h);
    assert at1.(counted := at1.counted + {(kind, at.view)}) == at1;
    g', qc := CountLastAt(g2, l, at1, kind, h, 3);
    MovesOn(g, l, g2, g');
  }

  lemma CountTwo(g: Global, l: int, at: Place, kind: Kind, h: Hash, x: int, y: int) returns (g': Global)
    requires MayCount(g, l, at, kind, h) && VotesFor(g.nodes[l], Key(kind, at.view, h)) == map[]
    requires Cast(g, x, l, kind, at.view, h) && Cast(g, y, l, kind, at.view, h) && 0 <= x < 3 && 0 <= y < 3 && x != y
    ensures Moves(g, l, g') && g'.store == g.store && MayCount(g', l, at.(counted := at.counted + {(kind, at.view)}), kind, h)
    ensures var shares := VotesFor(g'.nodes[l], Key(kind, at.view, h)); |shares| == 2 && 3 !in shares && SharesOk(4, shares, kind, at.view, h)
  {
    var at1 := at.(counted := at.counted + {(kind, at.view)});
    var g1 := CountAt(g, l, at, kind, h, x);
    CastLater(g, g1, y, l, kind, at.view, h);
    assert at1.(counted := at1.counted + {(kind, at.view)}) == at1;
    g' := CountAt(g1, l, at1, kind, h, y);
    MovesOn(g, l, g1, g');
    TwoShares(VotesFor(g'.nodes[l], Key(kind, at.view, h)), x, y, kind, at.view, h);
  }

  lemma TwoShares(shares: map<int, Share>, x: int, y: int, kind: Kind, view: int, h: Hash)
    requires 0 <= x < 3 && 0 <= y < 3 && x != y && shares == map[x := ShareFor(x, kind, view, h), y := ShareFor(y, kind, view, h)]
    ensures |shares| == 2 && 3 !in shares && SharesOk(4, shares, kind, view, h)
  {
    assert shares.Keys == {x, y} && |shares| == |shares.Keys|;
  }

  lemma Uncounted(s: NodeState, key: Key)
    requires (key.kind, key.view) !in Counted(s)
    ensures key !in s.votes && key !in s.formed && VotesFor(s, key) == map[]
  {
    assert key in s.votes.Keys + s.formed ==> (key.kind, key.view) in Counted(s);
  }

  // ---------- proposing ----------

  /** Replica `p` has reported `qc` to the leader of `view`, or is faulty. */
  ghost predicate Reporting(g: Global, p: int, view: int, qc: Option<QC>) {
    p == 3 || (p in g.nodes && To(Leader(4, view), NewViewMessage(p, view - 1, qc)) in g.nodes[p].outbox)
  }

  /** The reports for the view of the leader so far are `qc`, at least once, and nothing. */
  ghost predicate Gathered(g: Global, l: int, at: Place, qc: Option<QC>) {
    && Reachable(g) && l in g.nodes && PlaceOf(g.nodes[l]) == at && at.view >= 1 && at.id == l == Leader(4, at.view) && at.view !in at.proposed
    && (qc.Some? ==> IsQC(g, qc.value, Prepare, qc.value.view, qc.value.hash) && qc.value.view < at.view)
  }

  lemma HighestReport(reports: map<int, Option<QC>>, p: int, qc: Option<QC>)
    requires p in reports && reports[p] == qc && forall q :: q in reports ==> reports[q] == qc || reports[q] == None
    ensures IsHighest(reports, qc)
  {
  }

  lemma ReportKept(c: Scene, msg: Message)
    requires ReportOk(4, c, msg)
    ensures var c', view := Reported(4, c, msg), msg.view + 1;
            && c' == c.(s := c.s.(newViews := c'.s.newViews)) && NewViewsOf(c'.s, view) == NewViewsOf(c.s, view)[msg.sender := msg.justify]
            && |NewViewsOf(c'.s, view)| == |NewViewsOf(c.s, view)| + 1
            && PlaceOf(c'.s) == PlaceOf(c.s).(reported := c.s.newViews.Keys + {view})
  {
    var c' := Reported(4, c, msg);
    assert c'.s.newViews.Keys == c.s.newViews.Keys + {msg.view + 1};
  }

  lemma TooFewReports(c: Scene, qc: Option<QC>)
    requires |NewViewsOf(c.s, c.s.view)| < 3 && IsHighest(NewViewsOf(c.s, c.s.view), qc)
    ensures Acts(4, c, Propose(qc), c)
  {
  }

  lemma ReportsThenProposes(c: Scene, msg: Message, high: Option<QC>, c': Scene)
    requires ReportOk(4, c, msg) && msg.view + 1 == c.s.view && Acts(4, Reported(4, c, msg), Propose(high), c')
    ensures ReportsBy(4, c, msg, [Keep(msg), Propose(high)], c')
  {
  }

  /** Two reports, one of them by `p`, both of `qc` and none by the faulty replica. */
  ghost predicate TwoAgree(reports: map<int, Option<QC>>, p: int, qc: Option<QC>) {
    p in reports && 3 !in reports && |reports| == 2 && forall q :: q in reports ==> reports[q] == qc
  }

  /** A report that completes no quorum changes the reports only. */
  lemma ReportsMore(c: Scene, msg: Message, qc: Option<QC>)
    requires ReportOk(4, c, msg) && msg.view + 1 == c.s.view && msg.justify == qc
    requires var reports := NewViewsOf(c.s, c.s.view); |reports| + 1 < 3 && forall q :: q in reports ==> reports[q] == qc
    ensures ReportsBy(4, c, msg, [Keep(msg), Propose(qc)], Reported(4, c, msg))
  {
    ReportKept(c, msg);
    var c' := Reported(4, c, msg);
    HighestReport(NewViewsOf(c'.s, c.s.view), msg.sender, qc);
    ReportsQuietly(c, msg, qc, c');
  }

  lemma ReportsQuietly(c: Scene, msg: Message, qc: Option<QC>, c': Scene)
    requires ReportOk(4, c, msg) && msg.view + 1 == c.s.view == c'.s.view && c' == Reported(4, c, msg)
    requires |NewViewsOf(c'.s, c'.s.view)| < 3 && IsHighest(NewViewsOf(c'.s, c'.s.view), qc)
    ensures ReportsBy(4, c, msg, [Keep(msg), Propose(qc)], c')
  {
    TooFewReports(c', qc);
    ReportsThenProposes(c, msg, qc, c');
  }

  lemma ReportAt(g: Global, l: int, at: Place, p: int, qc: Option<QC>) returns (g': Global)
    requires Gathered(g, l, at, qc) && Reporting(g, p, at.view, qc) && 0 <= p < 3
    requires var reports := NewViewsOf(g.nodes[l], at.view); p !in reports && |reports| + 1 < 3 && forall q :: q in reports ==> reports[q] == qc
    ensures Moves(g, l, g') && g'.store == g.store && Gathered(g', l, at.(reported := at.reported + {at.view}), qc)
    ensures NewViewsOf(g'.nodes[l], at.view) == NewViewsOf(g.nodes[l], at.view)[p := qc]
  {
    var c, msg := SceneOf(g, l), NewViewMessage(p, at.view - 1, qc);
    assert ReportOk(4, c, msg);
    ReportKept(c, msg);
    ReportsMore(c, msg, qc);
    g' := ReportDelivered(g, l, msg, qc, Reported(4, c, msg));
  }

  lemma ReportDelivered(g: Global, l: int, msg: Message, qc: Option<QC>, c': Scene) returns (g': Global)
    requires Reachable(g) && l in g.nodes && ReportsBy(4, SceneOf(g, l), msg, [Keep(msg), Propose(qc)], c')
    requires c' == SceneOf(g, l).(s := g.nodes[l].(newViews := c'.s.newViews)) && 0 <= msg.sender < 4 && msg.kind == NewView && Arrives(FOUR, g, l, msg)
    ensures Moves(g, l, g') && g'.store == g.store && g'.certs == g.certs && g'.nodes[l] == c'.s
  {
    g' := PerformReport(g, l, msg, qc, c');
  }

  function NodeOn(qc: Option<QC>, cmd: Command, view: int): TreeNode {
    TreeNode(JustifiedParent(qc), cmd, Digest(JustifiedParent(qc), cmd), view)
  }

  lemma ProposesOn(c: Scene, qc: Option<QC>, cmd: Command)
    requires TreeOk(c) && MayPropose(4, c) && NextPending(c.s.pending, c.s.ledger.seen) == Some(cmd) && CanEnsure(c, JustifiedParent(qc))
    requires qc.Some? ==> qc.value.kind == Prepare && Verifies(4, c.certs, qc.value)
    ensures var c', node := Proposed(4, c, qc), NodeOn(qc, cmd, c.s.view);
            && c'.store == Stored(c.store, node) && c'.certs == c.certs && Grows(c, c')
            && PlaceOf(c'.s) == PlaceOf(c.s).(proposed := c.s.proposed + {c.s.view})
            && ToAll(Message(Prepare, c.s.view, Some(node), qc, c.s.id, None, false)) in c'.s.outbox
  {
    var c', node := Proposed(4, c, qc), NodeOn(qc, cmd, c.s.view);
    EnsuredKeeps(c, JustifiedParent(qc));
    assert c'.s.outbox[|c.s.outbox|] == ToAll(Message(Prepare, c.s.view, Some(node), qc, c.s.id, None, false));
  }

  /** The faulty replica's report completes the quorum, and the leader proposes. */
  lemma ProposeAt(g: Global, l: int, at: Place, qc: Option<QC>, cmd: Command, p: int) returns (g': Global)
    requires Gathered(g, l, at, qc) && at.pending == [cmd] && at.last == Genesis && Available(g.store, JustifiedParent(qc))
    requires TwoAgree(NewViewsOf(g.nodes[l], at.view), p, qc)
    ensures Moves(g, l, g') && g'.store == Stored(g.store, NodeOn(qc, cmd, at.view))
    ensures PlaceOf(g'.nodes[l]) == at.(reported := at.reported + {at.view}, proposed := at.proposed + {at.view})
    ensures ToAll(ProposalMessage(at.view, NodeOn(qc, cmd, at.view), qc)) in g'.nodes[l].outbox
  {
    SceneOk(g, l);
    var c' := ProposedScene(SceneOf(g, l), at, qc, cmd, p);
    g' := PerformReport(g, l, NewViewMessage(3, at.view - 1, None), qc, c');
  }

  lemma ProposedScene(c: Scene, at: Place, qc: Option<QC>, cmd: Command, p: int) returns (c': Scene)
    requires TreeOk(c) && LedgerOk(c.s) && PlaceOf(c.s) == at && at.view >= 1 && at.id == Leader(4, at.view) && at.view !in at.proposed
    requires qc.Some? ==> qc.value.kind == Prepare && Verifies(4, c.certs, qc.value)
    requires at.pending == [cmd] && at.last == Genesis && Available(c.store, JustifiedParent(qc)) && TwoAgree(NewViewsOf(c.s, at.view), p, qc)
    ensures var msg := NewViewMessage(3, at.view - 1, None); ReportsBy(4, c, msg, [Keep(msg), Propose(qc)], c') && Grows(c, c')
    ensures c'.store == Stored(c.store, NodeOn(qc, cmd, at.view))
    ensures PlaceOf(c'.s) == at.(reported := at.reported + {at.view}, proposed := at.proposed + {at.view})
    ensures ToAll(ProposalMessage(at.view, NodeOn(qc, cmd, at.view), qc)) in c'.s.outbox
  {
    var msg := NewViewMessage(3, at.view - 1, None);
    ReportKept(c, msg);
    NothingExecuted(c.s);
    AvailableToAll(c.s.tree, c.store, JustifiedParent(qc));
    var c1 := Reported(4, c, msg);
    HighestReport(NewViewsOf(c1.s, at.view), p, qc);
    c' := ProposedOver(c1, at.(reported := at.reported + {at.view}), qc, cmd);
    ReportsThenProposes(c, msg, qc, c');
  }

  lemma ProposedOver(c: Scene, at: Place, qc: Option<QC>, cmd: Command) returns (c': Scene)
    requires TreeOk(c) && PlaceOf(c.s) == at && at.id == Leader(4, at.view) && at.view !in at.proposed && at.pending == [cmd] && c.s.ledger.seen == {}
    requires qc.Some? ==> qc.value.kind == Prepare && Verifies(4, c.certs, qc.value)
    requires CanEnsure(c, JustifiedParent(qc)) && |NewViewsOf(c.s, at.view)| >= 3 && IsHighest(NewViewsOf(c.s, at.view), qc)
    ensures Acts(4, c, Propose(qc), c') && Grows(c, c') && c'.store == Stored(c.store, NodeOn(qc, cmd, at.view))
    ensures PlaceOf(c'.s) == at.(proposed := at.proposed + {at.view})
    ensures ToAll(ProposalMessage(at.view, NodeOn(qc, cmd, at.view), qc)) in c'.s.outbox
  {
    ProposesOn(c, qc, cmd);
    c' := Proposed(4, c, qc);
  }

  lemma NothingExecuted(s: NodeState)
    requires LedgerOk(s) && s.lastExecuted == Genesis
    ensures s.ledger.seen == {}
  {
  }

  /** The leader gathers the reports of two correct replicas and the faulty one, and proposes. */
  lemma GatherAt(g: Global, l: int, at: Place, qc: Option<QC>, cmd: Command, x: int, y: int) returns (g': Global)
    requires Gathered(g, l, at, qc) && at.view !in at.reported && at.pending == [cmd] && at.last == Genesis
    requires Available(g.store, JustifiedParent(qc))
    requires Reporting(g, x, at.view, qc) && Reporting(g, y, at.view, qc) && 0 <= x < 3 && 0 <= y < 3 && x != y
    ensures Moves(g, l, g') && g'.store == Stored(g.store, NodeOn(qc, cmd, at.view))
    ensures PlaceOf(g'.nodes[l]) == at.(reported := at.reported + {at.view}, proposed := at.proposed + {at.view})
    ensures ToAll(ProposalMessage(at.view, NodeOn(qc, cmd, at.view), qc)) in g'.nodes[l].outbox
  {
    var at1 := at.(reported := at.reported + {at.view});
    var g2 := GatherTwo(g, l, at, qc, x, y);
    assert at1.(reported := at1.reported + {at.view}) == at1;
    AvailableLater(g.store, g2.store, JustifiedParent(qc));
    g' := ProposeAt(g2, l, at1, qc, cmd, x);
    MovesOn(g, l, g2, g');
  }

  lemma GatherTwo(g: Global, l: int, at: Place, qc: Option<QC>, x: int, y: int) returns (g': Global)
    requires Gathered(g, l, at, qc) && NewViewsOf(g.nodes[l], at.view) == map[] && 0 <= x < 3 && 0 <= y < 3 && x != y
    requires Reporting(g, x, at.view, qc) && Reporting(g, y, at.view, qc)
    ensures Moves(g, l, g') && g'.store == g.store && Gathered(g', l, at.(reported := at.reported + {at.view}), qc)
    ensures TwoAgree(NewViewsOf(g'.nodes[l], at.view), x, qc)
  {
    var at1 := at.(reported := at.reported + {at.view});
    var g1 := ReportAt(g, l, at, x, qc);
    g' := SecondReport(g1, l, at1, qc, x, y);
    MovesOn(g, l, g1, g');
  }

  lemma SecondReport(g: Global, l: int, at: Place, qc: Option<QC>, x: int, y: int) returns (g': Global)
    requires Gathered(g, l, at, qc) && NewViewsOf(g.nodes[l], at.view) == map[x := qc] && 0 <= y < 3 && x != y && x != 3
    requires Reporting(g, y, at.view, qc) && at.view in at.reported
    ensures Moves(g, l, g') && g'.store == g.store && Gathered(g', l, at, qc)
    ensures TwoAgree(NewViewsOf(g'.nodes[l], at.view), x, qc)
  {
    OneReport(NewViewsOf(g.nodes[l], at.view), x, qc);
    assert at.(reported := at.reported + {at.view}) == at;
    g' := ReportAt(g, l, at, y, qc);
    TwoReports(NewViewsOf(g'.nodes[l], at.view), x, y, qc);
  }

  lemma OneReport(reports: map<int, Option<QC>>, x: int, qc: Option<QC>)
    requires reports == map[x := qc]
    ensures |reports| == 1 && reports.Keys == {x}
  {
    assert reports.Keys == {x} && |reports| == |reports.Keys|;
  }

  lemma TwoReports(reports: map<int, Option<QC>>, x: int, y: int, qc: Option<QC>)
    requires x != y && reports == map[x := qc, y := qc]
    ensures |reports| == 2 && reports.Keys == {x, y} && forall q :: q in reports ==> reports[q] == qc
  {
    assert reports.Keys == {x, y} && |reports| == |reports.Keys|;
  }

  // ---------- the faulty replica ----------

  lemma {:induction false} SignAll(g: Global, votes: seq<Vote>) returns (g': Global)
    requires Reachable(g) && forall v :: v in votes ==> v.signer == 3
    ensures Later(g, g') && g'.nodes == g.nodes && g'.store == g.store && forall v :: v in votes ==> v in g'.signed
  {
    g' := g;
    if votes != [] {
      var rest := SignAll(g, votes[1..]);
      var v := votes[0];
      assert v in votes;
      g' := rest.(signed := rest.signed + {v}, early := rest.early + {v});
      Extend(rest, Outside(Sign(v)), g');
    }
  }

  /** The faulty replica has signed for one node in all phases of a view. */
  ghost predicate Supported(g: Global, view: int, h: Hash) {
    && Vote(3, Prepare, view, h) in g.signed
    && Vote(3, PreCommit, view, h) in g.signed
    && Vote(3, Commit, view, h) in g.signed
  }

  lemma Support(g: Global, view: int, h: Hash) returns (g': Global)
    requires Reachable(g)
    ensures Later(g, g') && g'.nodes == g.nodes && g'.store == g.store && Supported(g', view, h)
  {
    var votes := [Vote(3, Prepare, view, h), Vote(3, PreCommit, view, h), Vote(3, Commit, view, h)];
    g' := SignAll(g, votes);
    assert votes[0] in votes && votes[1] in votes && votes[2] in votes;
  }

  lemma SharesHandedOver(g: Global, record: Record, x: int, y: int)
    requires Reachable(g) && 0 <= x < y < 3 && record.shares.Keys == {x, y, 3}
    requires Cast(g, x, 3, record.kind, record.view, record.hash) && record.shares[x] == ShareFor(x, record.kind, record.view, record.hash)
    requires Cast(g, y, 3, record.kind, record.view, record.hash) && record.shares[y] == ShareFor(y, record.kind, record.view, record.hash)
    ensures HandedOver(FOUR, g, record)
  {
    var m :| To(3, m) in g.nodes[x].outbox && IsVoteFor(m, x, record.kind, record.view, record.hash);
    var m' :| To(3, m') in g.nodes[y].outbox && IsVoteFor(m', y, record.kind, record.view, record.hash);
    forall id | id in record.shares && FOUR.Correct(id)
      ensures id in g.nodes && exists r, m :: !FOUR.Correct(r) && To(r, m) in g.nodes[id].outbox && m.sig == Some(record.shares[id])
    {
      assert !FOUR.Correct(3);
      if id == x {
        assert To(3, m) in g.nodes[id].outbox;
      } else {
        assert To(3, m') in g.nodes[id].outbox;
      }
    }
  }

  lemma ThreeShares(g: Global, kind: Kind, view: int, h: Hash, x: int, y: int) returns (record: Record)
    requires Reachable(g) && Cast(g, x, 3, kind, view, h) && Cast(g, y, 3, kind, view, h) && Cast(g, 3, 3, kind, view, h) && 0 <= x < y < 3
    ensures record.kind == kind && record.view == view && record.hash == h && record.shares.Keys == {x, y, 3}
    ensures record.shares[x] == ShareFor(x, kind, view, h) && record.shares[y] == ShareFor(y, kind, view, h)
    ensures Combines(4, record.shares, kind, view, h) && SharesGenuine(g.signed, record.shares)
  {
    VoteOutSigned(g, x, 3, kind, view, h);
    VoteOutSigned(g, y, 3, kind, view, h);
    var shares := map[x := ShareFor(x, kind, view, h), y := ShareFor(y, kind, view, h), 3 := ShareFor(3, kind, view, h)];
    assert shares.Keys == {x, y, 3} && |shares| == |shares.Keys| == 3;
    record := Record(kind, view, h, shares);
  }

  lemma CombineAt(g: Global, record: Record) returns (g': Global, qc: QC)
    requires Reachable(g) && Combines(4, record.shares, record.kind, record.view, record.hash) && SharesGenuine(g.signed, record.shares)
    requires HandedOver(FOUR, g, record)
    ensures Later(g, g') && g'.nodes == g.nodes && g'.store == g.store && IsQC(g', qc, record.kind, record.view, record.hash)
  {
    ReachableOk(g);
    g' := g.(certs := Registered(g.certs, record));
    Extend(g, Outside(Combine(record)), g');
    qc := QC(record.kind, record.view, record.hash, DigestOf(record));
    forall other | Verifies(4, g.certs, other) ensures Verifies(4, g'.certs, other) {
      CombinedVerifies(4, g.certs, record, other);
    }
    CombinedVerifies(4, g.certs, record, qc);
  }

  /** The faulty leader combines two votes sent to it and its own. */
  lemma MintAt(g: Global, kind: Kind, view: int, h: Hash, x: int, y: int) returns (g': Global, qc: QC)
    requires Reachable(g) && Cast(g, x, 3, kind, view, h) && Cast(g, y, 3, kind, view, h) && Cast(g, 3, 3, kind, view, h) && 0 <= x < y < 3
    ensures Later(g, g') && g'.nodes == g.nodes && g'.store == g.store && IsQC(g', qc, kind, view, h)
  {
    var record := ThreeShares(g, kind, view, h, x, y);
    SharesHandedOver(g, record, x, y);
    g', qc := CombineAt(g, record);
  }
}
