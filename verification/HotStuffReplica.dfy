/** A replica of Basic HotStuff with its fields, the shared node store and the handlers that update them.
    Each handler is proved against the functions on scenes; the handlers that may enter a new view, and
    then replay buffered messages, are proved against the relation of what a call handles in what order. */
module HotStuffReplica {
  import opened Quorums
  import opened HotStuffTree
  import opened HotStuffBank
  import opened HotStuffVotes
  import opened HotStuffCrypto
  import opened HotStuffNode
  import opened HotStuffEffects
  import opened HotStuffCalls
  import opened HotStuffWalk

  /** The node store of the simulated network. */
  class Network {
    var nodeStore: Tree

    constructor ()
      ensures nodeStore == map[]
    {
      nodeStore := map[];
    }

    method StoreNode(node: TreeNode)
      modifies this
      ensures nodeStore == Stored(old(nodeStore), node)
    {
      if node.hash == Text("") {
        return;
      }
      if node.hash !in nodeStore {
        nodeStore := nodeStore[node.hash := node];
      }
    }

    method FetchNode(hash: Hash) returns (node: Option<TreeNode>)
      ensures node == if hash in nodeStore then Some(nodeStore[hash]) else None
    {
      if hash !in nodeStore {
        return None;
      }
      return Some(nodeStore[hash]);
    }
  }

  class Node {
    const id: int
    const n: nat
    const net: Network
    const verifier: ThresholdVerifier
    const stateMachine: StateMachine

    var viewNumber: int
    var phase: Kind
    var lockedQC: Option<QC>
    var prepareQC: Option<QC>
    var tree: Tree
    var lastExecutedHash: Hash
    var executedCommands: set<string>
    var pendingCommands: seq<Command>
    var knownCommands: set<string>
    var voted: map<(Kind, int), Hash>
    var votes: map<Key, map<int, Share>>
    var formedQC: set<Key>
    var newViews: map<int, map<int, Option<QC>>>
    var proposedInView: set<int>
    var futureMessages: map<int, seq<Message>>
    var outbox: seq<Sent>

    ghost function State(): NodeState
      reads this, stateMachine
    {
      NodeState(id, viewNumber, phase, lockedQC, prepareQC, tree, lastExecutedHash,
                Ledger(stateMachine.View(), executedCommands), pendingCommands, knownCommands, voted, votes, formedQC,
                newViews, proposedInView, futureMessages, outbox)
    }

    ghost function View(): Scene
      reads this, net, verifier, stateMachine
    {
      Scene(State(), net.nodeStore, verifier.certificates)
    }

    ghost predicate Valid()
      reads this, net, verifier, stateMachine
    {
      verifier.n == n && TreeOk(View()) && Known(tree, lastExecutedHash)
    }

    constructor (id: int, n: nat, net: Network, verifier: ThresholdVerifier)
      requires verifier.n == n && StoreOk(net.nodeStore)
      ensures this.id == id && this.n == n && this.net == net && this.verifier == verifier && fresh(stateMachine)
      ensures Valid() && View() == Scene(NewNode(id), old(net.nodeStore), old(verifier.certificates))
    {
      this.id, this.n, this.net, this.verifier := id, n, net, verifier;
      stateMachine := new StateMachine();
      viewNumber, phase, lockedQC, prepareQC := 1, NewView, None, None;
      tree, lastExecutedHash, executedCommands := map[], Genesis, {};
      pendingCommands, knownCommands, voted, votes, formedQC := [], {}, map[], map[], {};
      newViews, proposedInView, futureMessages, outbox := map[], {}, map[], [];
    }

    // ---------- the tree ----------

    method FetchBranch(h: Hash) returns (branch: Option<seq<TreeNode>>)
      ensures branch == Missing(tree, net.nodeStore, h, {})
    {
      var visited: set<Hash> := {};
      var current := h;
      var fetched: seq<TreeNode> := [];
      JoinedEnds(fetched, Missing(tree, net.nodeStore, h, {}));
      while current != Genesis
        invariant Missing(tree, net.nodeStore, h, {}) == Joined(fetched, Missing(tree, net.nodeStore, current, visited))
        decreases |net.nodeStore.Keys - visited|
      {
        if current in visited {
          return None;
        }
        if current in tree {
          break;
        }
        var node := net.FetchNode(current);
        if node.None? || HashOf(node.value) != node.value.hash {
          return None;
        }
        Visiting(net.nodeStore.Keys, visited, current);
        visited := visited + {current};
        JoinedLater(fetched, node.value, Missing(tree, net.nodeStore, node.value.parent, visited));
        fetched := fetched + [node.value];
        current := node.value.parent;
      }
      JoinedEnds(fetched, None);
      return Some(fetched);
    }

    method Plant(fetched: seq<TreeNode>)
      modifies this`tree
      ensures tree == Planted(old(tree), fetched)
    {
      var i := |fetched|;
      while i > 0
        invariant 0 <= i <= |fetched|
        invariant tree == Planted(old(tree), fetched[i..])
      {
        i := i - 1;
        PlantedFromFarEnd(old(tree), fetched, i);
        tree := tree[fetched[i].hash := fetched[i]];
      }
      assert fetched[0..] == fetched;
    }

    method EnsureNode(h: Hash) returns (ok: bool)
      requires Valid()
      modifies this`tree
      ensures ok == CanEnsure(old(View()), h) && View() == Ensured(old(View()), h)
      ensures Valid() && (ok ==> Known(tree, h)) && forall x :: Known(old(tree), x) ==> Known(tree, x)
    {
      EnsuredKeeps(View(), h);
      if h == Genesis || h in tree {
        return true;
      }
      MissingIsBranch(tree, net.nodeStore, h, {});
      var branch := FetchBranch(h);
      if branch.None? {
        return false;
      }
      Plant(branch.value);
      return true;
    }

    method Walk(from: Hash, goal: Hash) returns (passed: Option<seq<TreeNode>>)
      ensures passed == Trace(tree, from, goal, {})
    {
      var current := from;
      var visited: set<Hash> := {};
      var nodes: seq<TreeNode> := [];
      JoinedEnds(nodes, Trace(tree, from, goal, {}));
      while current != goal
        invariant Trace(tree, from, goal, {}) == Joined(nodes, Trace(tree, current, goal, visited))
        decreases |tree.Keys - visited|
      {
        if current == Genesis || current in visited || current !in tree {
          return None;
        }
        Visiting(tree.Keys, visited, current);
        var node := tree[current];
        visited := visited + {current};
        JoinedLater(nodes, node, Trace(tree, node.parent, goal, visited));
        nodes := nodes + [node];
        current := node.parent;
      }
      JoinedEnds(nodes, None);
      return Some(nodes);
    }

    method ExtendsFromLocked(descendant: Hash, ancestor: Hash) returns (ok: bool)
      requires Valid()
      modifies this`tree
      ensures ok == ExtendsFrom(old(View()), descendant, ancestor) && View() == Searched(old(View()), descendant, ancestor)
      ensures Valid()
    {
      if ancestor == Genesis {
        return true;
      }
      var found := EnsureNode(descendant);
      if !found {
        return false;
      }
      found := EnsureNode(ancestor);
      if !found {
        return false;
      }
      TraceIsAncestry(tree, descendant, ancestor, {});
      var passed := Walk(descendant, ancestor);
      return passed.Some?;
    }

    method AcceptNode(node: TreeNode) returns (ok: bool)
      requires Valid()
      modifies this`tree, net
      ensures ok == Acceptable(old(View()), node) && View() == Accepted(old(View()), node) && Valid()
      ensures ok ==> node.hash in tree
    {
      AcceptedKeeps(View(), node);
      if node.parent == Text("") || node.hash == Text("") || node.cmd.id == "" {
        return false;
      }
      if HashOf(node) != node.hash {
        return false;
      }
      if node.parent != Genesis {
        var found := EnsureNode(node.parent);
        if !found {
          return false;
        }
      }
      tree := tree[node.hash := node];
      net.StoreNode(node);
      return true;
    }

    // ---------- voting ----------

    method SendVote(kind: Kind, view: int, hash: Hash, leader: int)
      requires Valid()
      modifies this`tree, this`voted, this`outbox
      ensures View() == VoteCast(old(View()), kind, view, hash, leader) && Valid()
    {
      if (kind, view) in voted {
        return;
      }
      var found := EnsureNode(hash);
      if !found {
        return;
      }
      voted := voted[(kind, view) := hash];
      var share := Share(id, SignedBy(Vote(id, kind, view, hash)));
      var node := if hash in tree then Some(tree[hash]) else None;
      outbox := outbox + [To(leader, Message(kind, view, node, None, id, Some(share), true))];
    }

    method SafeNodeLocked(hash: Hash, justify: Option<QC>) returns (ok: bool)
      requires Valid()
      modifies this`tree
      ensures ok == SafeNode(old(View()), hash, justify) && View() == SafetyChecked(old(View()), hash) && Valid()
    {
      if lockedQC.None? {
        return true;
      }
      var safetyRule := ExtendsFromLocked(hash, lockedQC.value.hash);
      var livenessRule := justify.Some? && justify.value.view > lockedQC.value.view;
      return safetyRule || livenessRule;
    }

    method CheckJustify(justify: Option<QC>, view: int) returns (ok: bool)
      requires Valid()
      modifies this`tree
      ensures ok == JustifyOk(n, old(View()), justify, view)
      ensures View() == if ok && justify.Some? then Ensured(old(View()), justify.value.hash) else old(View())
      ensures Valid()
    {
      if justify.None? {
        return true;
      }
      var qc := justify.value;
      if qc.kind != Prepare || qc.view >= view {
        return false;
      }
      var verified := verifier.VerifyQC(qc);
      if !verified {
        return false;
      }
      ok := EnsureNode(qc.hash);
    }

    method CheckPrepare(node: TreeNode, justify: Option<QC>, view: int, sender: int)
      requires Valid()
      modifies this`tree, this`phase, this`voted, this`outbox
      ensures View() == PrepareChecked(n, old(View()), node, justify, view, sender) && Valid()
    {
      var justified := CheckJustify(justify, view);
      if !justified || node.parent != JustifiedParent(justify) {
        return;
      }
      var safe := SafeNodeLocked(node.hash, justify);
      if !safe {
        return;
      }
      phase := Prepare;
      SendVote(Prepare, view, node.hash, sender);
    }

    method ProcessPrepare(msg: Message)
      requires Valid()
      modifies this`tree, this`phase, this`voted, this`outbox, net
      ensures View() == PrepareHandled(n, old(View()), msg) && Valid()
    {
      if msg.node.None? || msg.sig.Some? || msg.isVote {
        return;
      }
      var accepted := AcceptNode(msg.node.value);
      if accepted {
        CheckPrepare(msg.node.value, msg.justify, msg.view, msg.sender);
      }
    }

    method CheckPhase(msg: Message, kind: Kind) returns (ok: bool)
      requires Valid()
      modifies this`tree
      ensures ok == PhaseOk(n, old(View()), msg, kind)
      ensures View() == if ok then Ensured(old(View()), msg.justify.value.hash) else old(View())
      ensures Valid() && (ok ==> Known(tree, msg.justify.value.hash))
    {
      if msg.node.Some? || msg.justify.None? || msg.justify.value.kind != kind || msg.justify.value.view != msg.view {
        return false;
      }
      var verified := verifier.VerifyQC(msg.justify.value);
      if !verified {
        return false;
      }
      ok := EnsureNode(msg.justify.value.hash);
    }

    method ProcessPreCommit(msg: Message)
      requires Valid()
      modifies this`tree, this`phase, this`prepareQC, this`voted, this`outbox
      ensures View() == PreCommitHandled(n, old(View()), msg) && Valid()
    {
      var ok := CheckPhase(msg, Prepare);
      if !ok {
        return;
      }
      var qc := msg.justify.value;
      if prepareQC.None? || qc.view > prepareQC.value.view {
        prepareQC := Some(qc);
      }
      phase := PreCommit;
      assert Valid();
      SendVote(PreCommit, msg.view, qc.hash, msg.sender);
    }

    method ProcessCommit(msg: Message)
      requires Valid()
      modifies this`tree, this`phase, this`lockedQC, this`voted, this`outbox
      ensures View() == CommitHandled(n, old(View()), msg) && Valid()
    {
      var ok := CheckPhase(msg, PreCommit);
      if !ok {
        return;
      }
      var qc := msg.justify.value;
      lockedQC := Some(qc);
      phase := Commit;
      SendVote(Commit, msg.view, qc.hash, msg.sender);
    }

    // ---------- execution ----------

    method ExecutePassed(nodes: seq<TreeNode>)
      modifies stateMachine, this`executedCommands, this`lastExecutedHash
      ensures State() == old(State()).(ledger := AppliedAll(old(State()).ledger, Commands(nodes)),
                                       lastExecuted := if nodes == [] then old(lastExecutedHash) else nodes[0].hash)
    {
      var i := |nodes|;
      while i > 0
        invariant 0 <= i <= |nodes|
        invariant State() == old(State()).(ledger := AppliedAll(old(State()).ledger, Commands(nodes[i..])),
                                           lastExecuted := if i == |nodes| then old(lastExecutedHash) else nodes[i].hash)
      {
        i := i - 1;
        var node := nodes[i];
        CommandsFromFarEnd(nodes, i);
        if node.cmd.id !in executedCommands {
          var accepted := stateMachine.Execute(node.cmd);
          executedCommands := executedCommands + {node.cmd.id};
        }
        lastExecutedHash := node.hash;
      }
      assert nodes[0..] == nodes;
    }

    method ExecuteThrough(committed: Hash) returns (ok: bool)
      requires Valid()
      modifies this`tree, stateMachine, this`executedCommands, this`lastExecutedHash
      ensures ok == CanExecute(old(View()), committed) && View() == ExecutedThrough(old(View()), committed) && Valid()
    {
      if committed == lastExecutedHash {
        return true;
      }
      ghost var before := lastExecutedHash;
      var found := EnsureNode(committed);
      if !found {
        return false;
      }
      TraceIsAncestry(tree, committed, lastExecutedHash, {});
      var passed := Walk(committed, lastExecutedHash);
      if passed.None? {
        return false;
      }
      ExecutePassed(passed.value);
      assert Path(committed)[|Path(before)|..] == Commands(passed.value);
      return true;
    }

    /** The part of a DECIDE message before the view change; says whether the view change follows. */
    method Decide(msg: Message) returns (decided: bool)
      requires Valid()
      modifies this`tree, this`phase, stateMachine, this`executedCommands, this`lastExecutedHash
      ensures View() == DecideHandled(n, old(View()), msg) && Valid()
      ensures decided == (PhaseOk(n, old(View()), msg, HotStuffVotes.Commit) && Extends(msg.justify.value.hash, old(lastExecutedHash)))
    {
      var ok := CheckPhase(msg, HotStuffVotes.Commit);
      if !ok {
        return false;
      }
      phase := HotStuffVotes.Decide;
      decided := ExecuteThrough(msg.justify.value.hash);
    }

    // ---------- the leader ----------

    method Form(key: Key)
      requires Valid()
      modifies this`formedQC, this`phase, this`outbox, verifier
      ensures View() == Formed(n, old(View()), key) && Valid()
    {
      var shares := if key in votes then votes[key] else map[];
      if |shares| < QuorumSize(n) {
        return;
      }
      var token := verifier.Combine(key.kind, key.view, key.hash, shares);
      if token.None? {
        return;
      }
      var qc := QC(key.kind, key.view, key.hash, token.value);
      formedQC := formedQC + {key};
      phase := NextKind(key.kind);
      outbox := outbox + [ToAll(Message(NextKind(key.kind), key.view, None, Some(qc), id, None, false))];
    }

    method CountVote(key: Key, share: Share)
      requires Valid()
      modifies this`votes, this`formedQC, this`phase, this`outbox, verifier
      ensures View() == VoteCounted(n, old(View()), key, share) && Valid()
    {
      if !ShareOk(n, share, key.kind, key.view, key.hash) || key in formedQC {
        return;
      }
      var collected := if key in votes then votes[key] else map[];
      if share.signer in collected {
        return;
      }
      votes := votes[key := collected[share.signer := share]];
      Form(key);
    }

    method ProcessLeaderVote(msg: Message)
      requires Valid()
      modifies this`tree, net, this`votes, this`formedQC, this`phase, this`outbox, verifier
      ensures View() == VoteHandled(n, old(View()), msg) && Valid()
    {
      if Leader(n, msg.view) != id || msg.view != viewNumber {
        return;
      }
      if msg.kind != Prepare && msg.kind != PreCommit && msg.kind != HotStuffVotes.Commit {
        return;
      }
      if msg.node.None? || msg.justify.Some? || msg.sig.None? || msg.sig.value.signer != msg.sender {
        return;
      }
      var accepted := AcceptNode(msg.node.value);
      if accepted {
        CountVote(Key(msg.kind, msg.view, msg.node.value.hash), msg.sig.value);
      }
    }

    method HighestQC(reports: map<int, Option<QC>>) returns (high: Option<QC>)
      ensures IsHighest(reports, high)
    {
      high := None;
      var todo := reports.Keys;
      while todo != {}
        invariant todo <= reports.Keys
        invariant high.None? ==> forall p :: p in reports && p !in todo ==> reports[p].None?
        invariant high.Some? ==> exists p :: p in reports && reports[p] == high
        invariant high.Some? ==> forall p :: p in reports && p !in todo && reports[p].Some? ==> reports[p].value.view <= high.value.view
      {
        NonEmpty(todo);
        var p :| p in todo;
        if reports[p].Some? && (high.None? || reports[p].value.view > high.value.view) {
          high := reports[p];
        }
        todo := todo - {p};
      }
    }

    method NextPendingCommand() returns (cmd: Option<Command>)
      ensures cmd == NextPending(pendingCommands, executedCommands)
    {
      var i := 0;
      while i < |pendingCommands|
        invariant 0 <= i <= |pendingCommands|
        invariant NextPending(pendingCommands, executedCommands) == NextPending(pendingCommands[i..], executedCommands)
      {
        if pendingCommands[i].id !in executedCommands {
          return Some(pendingCommands[i]);
        }
        i := i + 1;
      }
      return None;
    }

    method CheckHigh(high: Option<QC>) returns (ok: bool)
      requires Valid()
      modifies this`tree
      ensures ok == (high.Some? ==> && high.value.kind == Prepare && Verifies(n, verifier.certificates, high.value)
                                    && CanEnsure(old(View()), high.value.hash))
      ensures View() == if ok then Ensured(old(View()), JustifiedParent(high)) else old(View())
      ensures Valid()
    {
      if high.None? {
        return true;
      }
      if high.value.kind != Prepare {
        return false;
      }
      var verified := verifier.VerifyQC(high.value);
      if !verified {
        return false;
      }
      ok := EnsureNode(high.value.hash);
    }

    method TryPropose() returns (high: Option<QC>)
      requires Valid()
      modifies this`tree, net, this`proposedInView, this`phase, this`outbox
      ensures Valid() && Acts(n, old(View()), Propose(high), View())
    {
      var reports := if viewNumber in newViews then newViews[viewNumber] else map[];
      high := HighestQC(reports);
      if Leader(n, viewNumber) != id || viewNumber in proposedInView || |reports| < QuorumSize(n) {
        return;
      }
      var cmd := NextPendingCommand();
      if cmd.None? {
        return;
      }
      var ok := CheckHigh(high);
      if ok {
        Publish(JustifiedParent(high), cmd.value, high);
      }
      ProposeEffect(n, old(View()), high);
    }

    method Publish(parent: Hash, cmd: Command, high: Option<QC>)
      modifies this`tree, net, this`proposedInView, this`phase, this`outbox
      ensures View() == Published(old(View()), Proposal(old(View()), parent, cmd), high)
    {
      var node := TreeNode(parent, cmd, Digest(parent, cmd), viewNumber);
      tree := tree[node.hash := node];
      net.StoreNode(node);
      Announce(node, high);
    }

    method Announce(node: TreeNode, high: Option<QC>)
      modifies this`proposedInView, this`phase, this`outbox
      ensures View() == Announced(old(View()), node, high)
    {
      proposedInView := proposedInView + {viewNumber};
      phase := Prepare;
      outbox := outbox + [ToAll(Message(Prepare, viewNumber, Some(node), high, id, None, false))];
    }

    method KeepNewView(msg: Message) returns (kept: bool)
      requires Valid()
      modifies this`newViews
      ensures kept == ReportOk(n, old(View()), msg) && View() == Reported(n, old(View()), msg) && Valid()
    {
      var target := msg.view + 1;
      if target < 1 || Leader(n, target) != id || msg.isVote || msg.node.Some? || msg.sig.Some? {
        return false;
      }
      if msg.justify.Some? {
        if msg.justify.value.kind != Prepare || msg.justify.value.view > msg.view {
          return false;
        }
        var verified := verifier.VerifyQC(msg.justify.value);
        if !verified {
          return false;
        }
      }
      var reports := if target in newViews then newViews[target] else map[];
      if msg.sender in reports {
        return false;
      }
      newViews := newViews[target := reports[msg.sender := msg.justify]];
      return true;
    }

    // ---------- views ----------

    /** The first part of a view change: the view, the report to its leader, the buffered messages. */
    method MoveTo(newView: int) returns (batch: seq<Message>)
      requires Valid() && newView > viewNumber
      modifies this`viewNumber, this`phase, this`outbox, this`futureMessages
      ensures View() == Entered(n, old(View()), newView) && Valid()
      ensures batch == Batch(old(State()), newView)
    {
      SendNewView(viewNumber, newView);
      viewNumber := newView;
      phase := HotStuffVotes.NewView;
      batch := if newView in futureMessages then futureMessages[newView] else [];
      futureMessages := futureMessages - {newView};
    }

    method SendNewView(previousView: int, targetView: int)
      modifies this`outbox
      ensures outbox == old(outbox) + Report(n, old(State()).(view := previousView), targetView)
    {
      var leader := Leader(n, targetView);
      if leader == -1 {
        return;
      }
      outbox := outbox + [To(leader, Message(HotStuffVotes.NewView, previousView, None, prepareQC, id, None, false))];
    }

    method EnterView(newView: int) returns (ghost trail: seq<Action>)
      requires Valid()
      modifies this, net, verifier, stateMachine
      ensures Valid() && EntersBy(n, old(View()), newView, trail, View())
      ensures |futureMessages| <= |old(futureMessages)|
      decreases |futureMessages|, 0
    {
      trail := [];
      if newView <= viewNumber {
        return;
      }
      ghost var start := View();
      SmallerMap(futureMessages, newView);
      var batch := MoveTo(newView);
      if batch != [] {
        trail := Replay(batch);
      }
      ghost var replayed := View();
      var high := TryPropose();
      EntersOn(n, start, newView, trail, replayed, high, View());
      trail := [Enter(newView)] + trail + [Propose(high)];
    }

    /** Handles the messages that were buffered for the view just entered, without looking at the view again. */
    method Replay(batch: seq<Message>) returns (ghost trail: seq<Action>)
      requires Valid()
      modifies this, net, verifier, stateMachine
      ensures Valid() && ReplaysBy(n, old(View()), batch, trail, View())
      ensures |futureMessages| <= |old(futureMessages)|
      decreases |futureMessages|, 3
    {
      trail := [];
      var i := 0;
      while i < |batch|
        invariant 0 <= i <= |batch|
        invariant Valid() && ReplaysBy(n, old(View()), batch[..i], trail, View())
        invariant |futureMessages| <= |old(futureMessages)|
      {
        ghost var before := View();
        ghost var more := ReplayOne(batch[i]);
        ReplaysMore(n, old(View()), batch[..i], trail, before, batch[i], more, View());
        assert batch[..i] + [batch[i]] == batch[..i + 1];
        trail := trail + more;
        i := i + 1;
      }
      assert batch[..i] == batch;
    }

    method ReplayOne(msg: Message) returns (ghost trail: seq<Action>)
      requires Valid()
      modifies this, net, verifier, stateMachine
      ensures Valid() && TakesBy(n, old(View()), msg, trail, View())
      ensures |futureMessages| <= |old(futureMessages)|
      decreases |futureMessages|, 2
    {
      if msg.isVote {
        ProcessLeaderVote(msg);
        trail := [Count(msg)];
      } else {
        trail := ProcessReplicaMessage(msg);
      }
    }

    method Dispatch(msg: Message) returns (decided: bool)
      requires Valid()
      modifies this, net, verifier, stateMachine
      ensures View() == ReplicaHandled(n, old(View()), msg) && Valid()
      ensures viewNumber == old(viewNumber) && futureMessages == old(futureMessages)
      ensures decided == Decides(n, old(View()), msg)
    {
      decided := false;
      if msg.sender != Leader(n, msg.view) {
        return;
      }
      match msg.kind {
        case Prepare => ProcessPrepare(msg);
        case PreCommit => ProcessPreCommit(msg);
        case Commit => ProcessCommit(msg);
        case Decide => decided := this.Decide(msg);
        case NewView =>
      }
    }

    method ProcessReplicaMessage(msg: Message) returns (ghost trail: seq<Action>)
      requires Valid()
      modifies this, net, verifier, stateMachine
      ensures Valid() && HandlesBy(n, old(View()), msg, trail, View())
      ensures |futureMessages| <= |old(futureMessages)|
      decreases |futureMessages|, 1
    {
      ghost var action := Handle(msg, viewNumber);
      var decided := Dispatch(msg);
      trail := [];
      if decided {
        trail := EnterView(msg.view + 1);
      }
      assert ([action] + trail)[1..] == trail;
      trail := [action] + trail;
    }

    // ---------- what arrives ----------

    method HandleMessage(msg: Message) returns (ghost trail: seq<Action>)
      requires Valid()
      modifies this, net, verifier, stateMachine
      ensures Valid() && Answers(n, old(View()), Deliver(msg), trail, View())
    {
      trail := [];
      if !(0 <= msg.sender < n) {
        return;
      }
      if msg.kind == HotStuffVotes.NewView {
        trail := ProcessNewView(msg);
      } else if msg.view > viewNumber {
        var batch := if msg.view in futureMessages then futureMessages[msg.view] else [];
        futureMessages := futureMessages[msg.view := batch + [msg]];
        trail := [Buffer(msg)];
      } else if msg.view == viewNumber {
        trail := ReplayOne(msg);
      }
    }

    method ProcessNewView(msg: Message) returns (ghost trail: seq<Action>)
      requires Valid()
      modifies this, net
      ensures Valid() && ReportsBy(n, old(View()), msg, trail, View())
    {
      var kept := KeepNewView(msg);
      trail := [Keep(msg)];
      if kept && msg.view + 1 == viewNumber {
        var high := TryPropose();
        trail := [Keep(msg), Propose(high)];
      }
    }

    method HandleTimeout(view: int) returns (ghost trail: seq<Action>)
      requires Valid()
      modifies this, net, verifier, stateMachine
      ensures Valid() && Answers(n, old(View()), Timeout(view), trail, View())
    {
      trail := [];
      if view != viewNumber {
        return;
      }
      trail := EnterView(view + 1);
    }

    method HandleClientCommand(cmd: Command) returns (ghost trail: seq<Action>)
      requires Valid()
      modifies this, net
      ensures Valid() && Answers(n, old(View()), Client(cmd), trail, View())
    {
      trail := [];
      if cmd.id == "" || cmd.id in knownCommands {
        return;
      }
      knownCommands := knownCommands + {cmd.id};
      pendingCommands := pendingCommands + [cmd];
      var high := TryPropose();
      trail := [Queue(cmd), Propose(high)];
    }
  }

  // ---------- buffered messages ----------

  lemma SmallerMap(m: map<int, seq<Message>>, v: int)
    ensures |m - {v}| <= |m| && (v in m ==> |m - {v}| < |m|)
  {
    if v in m {
      assert |m| == |m.Keys| && |m - {v}| == |(m - {v}).Keys|;
      assert m.Keys == (m - {v}).Keys + {v};
    } else {
      assert m - {v} == m;
    }
  }
}
