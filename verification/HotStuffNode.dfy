/** What one replica of Basic HotStuff does with a message, as functions on the replica's state, the shared
    node store and the shared certificates. */
module HotStuffNode {
  import opened HotStuffTree
  import opened HotStuffBank
  import opened HotStuffVotes
  import opened HotStuffCrypto

  datatype Message = Message(kind: Kind, view: int, node: Option<TreeNode>, justify: Option<QC>, sender: int,
                             sig: Option<Share>, isVote: bool)

  datatype Sent = To(receiver: int, msg: Message) | ToAll(msg: Message)

  /** The votes of one phase and view for one node. */
  datatype Key = Key(kind: Kind, view: int, hash: Hash)

  datatype NodeState = NodeState(
    id: int, view: int, phase: Kind, locked: Option<QC>, prepareQC: Option<QC>,
    tree: Tree, lastExecuted: Hash, ledger: Ledger, pending: seq<Command>, known: set<string>,
    voted: map<(Kind, int), Hash>, votes: map<Key, map<int, Share>>, formed: set<Key>,
    newViews: map<int, map<int, Option<QC>>>, proposed: set<int>, future: map<int, seq<Message>>, outbox: seq<Sent>)

  /** A replica and what it shares with the others. */
  datatype Scene = Scene(s: NodeState, store: Tree, certs: Certificates)

  const NEW_LEDGER: Ledger := Ledger(NEW_BANK, {})

  function NewNode(id: int): NodeState {
    NodeState(id, 1, NewView, None, None, map[], Genesis, NEW_LEDGER, [], {}, map[], map[], {}, map[], {}, map[], [])
  }

  /** The leaders take turns; there is none before view 1. */
  function Leader(n: nat, view: int): int {
    if view < 1 || n == 0 then -1 else (view - 1) % n
  }

  // ---------- the tree ----------

  predicate CanEnsure(c: Scene, h: Hash) {
    Obtainable(c.s.tree, c.store, h)
  }

  function Ensured(c: Scene, h: Hash): Scene {
    if CanEnsure(c, h) then c.(s := c.s.(tree := Grown(c.s.tree, c.store, h))) else c
  }

  predicate Acceptable(c: Scene, node: TreeNode) {
    && node.parent != Text("") && node.hash != Text("") && node.cmd.id != ""
    && HashOf(node) == node.hash
    && CanEnsure(c, node.parent)
  }

  function Accepted(c: Scene, node: TreeNode): Scene {
    if Acceptable(c, node) then
      var c1 := Ensured(c, node.parent);
      c1.(s := c1.s.(tree := c1.s.tree[node.hash := node]), store := Stored(c1.store, node))
    else c
  }

  /** The tree after looking up both ends of an ancestry question. */
  function Searched(c: Scene, descendant: Hash, ancestor: Hash): Scene {
    if ancestor == Genesis || !CanEnsure(c, descendant) then c else Ensured(Ensured(c, descendant), ancestor)
  }

  predicate ExtendsFrom(c: Scene, descendant: Hash, ancestor: Hash) {
    || ancestor == Genesis
    || (CanEnsure(c, descendant) && CanEnsure(Ensured(c, descendant), ancestor) && Extends(descendant, ancestor))
  }

  // ---------- a replica's part ----------

  function VoteMessage(s: NodeState, kind: Kind, view: int, hash: Hash): Message {
    Message(kind, view, if hash in s.tree then Some(s.tree[hash]) else None, None, s.id,
            Some(Share(s.id, SignedBy(Vote(s.id, kind, view, hash)))), true)
  }

  predicate MayVote(c: Scene, kind: Kind, view: int, hash: Hash) {
    (kind, view) !in c.s.voted && CanEnsure(c, hash)
  }

  function VoteCast(c: Scene, kind: Kind, view: int, hash: Hash, leader: int): Scene {
    if MayVote(c, kind, view, hash) then
      var c1 := Ensured(c, hash);
      c1.(s := c1.s.(voted := c1.s.voted[(kind, view) := hash],
                     outbox := c1.s.outbox + [To(leader, VoteMessage(c1.s, kind, view, hash))]))
    else c
  }

  /** The proposal's justification, when there is one, is a prepare certificate of an earlier view. */
  predicate JustifyOk(n: nat, c: Scene, justify: Option<QC>, view: int) {
    justify.Some? ==>
      && justify.value.kind == Prepare && justify.value.view < view && Verifies(n, c.certs, justify.value)
      && CanEnsure(c, justify.value.hash)
  }

  function JustifiedParent(justify: Option<QC>): Hash {
    if justify.Some? then justify.value.hash else Genesis
  }

  predicate SafeNode(c: Scene, hash: Hash, justify: Option<QC>) {
    || c.s.locked.None?
    || ExtendsFrom(c, hash, c.s.locked.value.hash)
    || (justify.Some? && justify.value.view > c.s.locked.value.view)
  }

  function SafetyChecked(c: Scene, hash: Hash): Scene {
    if c.s.locked.None? then c else Searched(c, hash, c.s.locked.value.hash)
  }

  function PrepareChecked(n: nat, c: Scene, node: TreeNode, justify: Option<QC>, view: int, sender: int): Scene {
    if !JustifyOk(n, c, justify, view) then c
    else
      var c1 := if justify.Some? then Ensured(c, justify.value.hash) else c;
      if node.parent != JustifiedParent(justify) then c1
      else
        var c2 := SafetyChecked(c1, node.hash);
        if SafeNode(c1, node.hash, justify) then VoteCast(c2.(s := c2.s.(phase := Prepare)), Prepare, view, node.hash, sender)
        else c2
  }

  function PrepareHandled(n: nat, c: Scene, msg: Message): Scene {
    if msg.node.None? || msg.sig.Some? || msg.isVote || !Acceptable(c, msg.node.value) then c
    else PrepareChecked(n, Accepted(c, msg.node.value), msg.node.value, msg.justify, msg.view, msg.sender)
  }

  /** The message carries nothing but a certificate of the phase before it, from its own view. */
  predicate PhaseOk(n: nat, c: Scene, msg: Message, kind: Kind) {
    && msg.node.None? && msg.justify.Some?
    && msg.justify.value.kind == kind && msg.justify.value.view == msg.view
    && Verifies(n, c.certs, msg.justify.value) && CanEnsure(c, msg.justify.value.hash)
  }

  function PreCommitHandled(n: nat, c: Scene, msg: Message): Scene {
    if !PhaseOk(n, c, msg, Prepare) then c
    else
      var qc := msg.justify.value;
      var c1 := Ensured(c, qc.hash);
      var newer := c1.s.prepareQC.None? || qc.view > c1.s.prepareQC.value.view;
      var c2 := c1.(s := c1.s.(prepareQC := if newer then Some(qc) else c1.s.prepareQC, phase := PreCommit));
      VoteCast(c2, PreCommit, msg.view, qc.hash, msg.sender)
  }

  function CommitHandled(n: nat, c: Scene, msg: Message): Scene {
    if !PhaseOk(n, c, msg, PreCommit) then c
    else
      var qc := msg.justify.value;
      var c1 := Ensured(c, qc.hash);
      VoteCast(c1.(s := c1.s.(locked := Some(qc), phase := Commit)), Commit, msg.view, qc.hash, msg.sender)
  }

  /** The committed node lies on the executed branch or beyond it. */
  predicate CanExecute(c: Scene, h: Hash) {
    h == c.s.lastExecuted || (CanEnsure(c, h) && Extends(h, c.s.lastExecuted))
  }

  /** The commands between the last executed node and `h`. */
  function Fresh(s: NodeState, h: Hash): seq<Command> {
    var from := |Path(s.lastExecuted)|;
    if from <= |Path(h)| then Path(h)[from..] else []
  }

  function Advanced(c: Scene, h: Hash): Scene {
    c.(s := c.s.(ledger := AppliedAll(c.s.ledger, Fresh(c.s, h)), lastExecuted := h))
  }

  function ExecutedThrough(c: Scene, h: Hash): Scene {
    if h == c.s.lastExecuted then c
    else
      if CanExecute(c, h) then Advanced(Ensured(c, h), h) else Ensured(c, h)
  }

  function DecideHandled(n: nat, c: Scene, msg: Message): Scene {
    if !PhaseOk(n, c, msg, Commit) then c
    else
      var c1 := Ensured(c, msg.justify.value.hash);
      ExecutedThrough(c1.(s := c1.s.(phase := Decide)), msg.justify.value.hash)
  }

  /** A leader's message, up to but not including the view change that follows a decision. */
  function ReplicaHandled(n: nat, c: Scene, msg: Message): Scene {
    if msg.sender != Leader(n, msg.view) then c
    else match msg.kind
      case Prepare => PrepareHandled(n, c, msg)
      case PreCommit => PreCommitHandled(n, c, msg)
      case Commit => CommitHandled(n, c, msg)
      case Decide => DecideHandled(n, c, msg)
      case NewView => c
  }

  // ---------- a leader's part ----------

  predicate VoteWellFormed(n: nat, c: Scene, msg: Message) {
    && Leader(n, msg.view) == c.s.id && msg.view == c.s.view
    && (msg.kind == Prepare || msg.kind == PreCommit || msg.kind == Commit)
    && msg.node.Some? && msg.justify.None? && msg.sig.Some? && msg.sig.value.signer == msg.sender
    && Acceptable(c, msg.node.value)
  }

  function VotesFor(s: NodeState, key: Key): map<int, Share> {
    if key in s.votes then s.votes[key] else map[]
  }

  function NextKind(kind: Kind): Kind {
    match kind
    case NewView => Prepare
    case Prepare => PreCommit
    case PreCommit => Commit
    case Commit => Decide
    case Decide => Decide
  }

  function Formed(n: nat, c: Scene, key: Key): Scene {
    var shares := VotesFor(c.s, key);
    if |shares| < QuorumSize(n) || !Combines(n, shares, key.kind, key.view, key.hash) then c
    else
      var record := Record(key.kind, key.view, key.hash, shares);
      var qc := QC(key.kind, key.view, key.hash, DigestOf(record));
      var news := Message(NextKind(key.kind), key.view, None, Some(qc), c.s.id, None, false);
      c.(certs := Registered(c.certs, record),
         s := c.s.(formed := c.s.formed + {key}, phase := NextKind(key.kind), outbox := c.s.outbox + [ToAll(news)]))
  }

  function VoteCounted(n: nat, c: Scene, key: Key, share: Share): Scene {
    if !ShareOk(n, share, key.kind, key.view, key.hash) || key in c.s.formed || share.signer in VotesFor(c.s, key) then c
    else Formed(n, c.(s := c.s.(votes := c.s.votes[key := VotesFor(c.s, key)[share.signer := share]])), key)
  }

  function VoteHandled(n: nat, c: Scene, msg: Message): Scene {
    if !VoteWellFormed(n, c, msg) then c
    else VoteCounted(n, Accepted(c, msg.node.value), Key(msg.kind, msg.view, msg.node.value.hash), msg.sig.value)
  }

  /** The first pending command that was not executed. */
  function NextPending(pending: seq<Command>, seen: set<string>): Option<Command> {
    if pending == [] then None
    else if pending[0].id !in seen then Some(pending[0])
    else NextPending(pending[1..], seen)
  }

  function NewViewsOf(s: NodeState, view: int): map<int, Option<QC>> {
    if view in s.newViews then s.newViews[view] else map[]
  }

  /** A certificate of the highest view among those reported; none if none was. */
  predicate IsHighest(reports: map<int, Option<QC>>, high: Option<QC>) {
    && (high.None? ==> forall p :: p in reports ==> reports[p].None?)
    && (high.Some? ==>
          && (exists p :: p in reports && reports[p] == high)
          && forall p :: p in reports && reports[p].Some? ==> reports[p].value.view <= high.value.view)
  }

  predicate MayPropose(n: nat, c: Scene) {
    && Leader(n, c.s.view) == c.s.id && c.s.view !in c.s.proposed
    && |NewViewsOf(c.s, c.s.view)| >= QuorumSize(n)
    && NextPending(c.s.pending, c.s.ledger.seen).Some?
  }

  function Proposal(c: Scene, parent: Hash, cmd: Command): TreeNode {
    TreeNode(parent, cmd, Digest(parent, cmd), c.s.view)
  }

  function Announced(c: Scene, node: TreeNode, high: Option<QC>): Scene {
    c.(s := c.s.(proposed := c.s.proposed + {c.s.view}, phase := Prepare,
                 outbox := c.s.outbox + [ToAll(Message(Prepare, c.s.view, Some(node), high, c.s.id, None, false))]))
  }

  function Published(c: Scene, node: TreeNode, high: Option<QC>): Scene {
    Announced(c.(store := Stored(c.store, node), s := c.s.(tree := c.s.tree[node.hash := node])), node, high)
  }

  /** The leader proposes on top of the certificate `high`. */
  function Proposed(n: nat, c: Scene, high: Option<QC>): Scene {
    if !MayPropose(n, c) then c
    else if high.Some? && !(high.value.kind == Prepare && Verifies(n, c.certs, high.value) && CanEnsure(c, high.value.hash)) then c
    else
      var parent := JustifiedParent(high);
      Published(Ensured(c, parent), Proposal(c, parent, NextPending(c.s.pending, c.s.ledger.seen).value), high)
  }

  predicate ReportOk(n: nat, c: Scene, msg: Message) {
    && msg.view + 1 >= 1 && Leader(n, msg.view + 1) == c.s.id
    && !msg.isVote && msg.node.None? && msg.sig.None?
    && (msg.justify.Some? ==>
          msg.justify.value.kind == Prepare && msg.justify.value.view <= msg.view && Verifies(n, c.certs, msg.justify.value))
    && msg.sender !in NewViewsOf(c.s, msg.view + 1)
  }

  /** A NEW-VIEW message is kept, one per sender. */
  function Reported(n: nat, c: Scene, msg: Message): Scene {
    if !ReportOk(n, c, msg) then c
    else c.(s := c.s.(newViews := c.s.newViews[msg.view + 1 := NewViewsOf(c.s, msg.view + 1)[msg.sender := msg.justify]]))
  }

  // ---------- views ----------

  function Report(n: nat, s: NodeState, view: int): seq<Sent> {
    if Leader(n, view) == -1 then []
    else [To(Leader(n, view), Message(NewView, s.view, None, s.prepareQC, s.id, None, false))]
  }

  /** Moving to a later view; the messages buffered for it are taken out for replay. */
  function Entered(n: nat, c: Scene, view: int): Scene {
    if view <= c.s.view then c
    else c.(s := c.s.(view := view, phase := NewView, outbox := c.s.outbox + Report(n, c.s, view), future := c.s.future - {view}))
  }

  function Batch(s: NodeState, view: int): seq<Message> {
    if view in s.future then s.future[view] else []
  }

  function Buffered(c: Scene, msg: Message): Scene {
    c.(s := c.s.(future := c.s.future[msg.view := Batch(c.s, msg.view) + [msg]]))
  }

  function Queued(c: Scene, cmd: Command): Scene {
    if cmd.id == "" || cmd.id in c.s.known then c
    else c.(s := c.s.(known := c.s.known + {cmd.id}, pending := c.s.pending + [cmd]))
  }

  // ---------- steps ----------

  /** The indivisible actions of a replica; `at` is the view in which a leader's message was handled. */
  datatype Action =
    | Handle(msg: Message, at: int)
    | Count(msg: Message)
    | Keep(msg: Message)
    | Propose(high: Option<QC>)
    | Enter(view: int)
    | Buffer(msg: Message)
    | Queue(cmd: Command)

  ghost predicate Acts(n: nat, c: Scene, a: Action, c': Scene) {
    match a
    case Handle(msg, at) => at == c.s.view && c' == ReplicaHandled(n, c, msg)
    case Count(msg) => c' == VoteHandled(n, c, msg)
    case Keep(msg) => c' == Reported(n, c, msg)
    case Propose(high) => IsHighest(NewViewsOf(c.s, c.s.view), high) && c' == Proposed(n, c, high)
    case Enter(view) => c' == Entered(n, c, view)
    case Buffer(msg) => c' == Buffered(c, msg)
    case Queue(cmd) => c' == Queued(c, cmd)
  }

  ghost function Earlier(actions: seq<Action>): seq<Action>
    requires actions != []
  {
    actions[..|actions| - 1]
  }

  ghost function Latest(actions: seq<Action>): Action
    requires actions != []
  {
    actions[|actions| - 1]
  }

  /** The actions, in order, take `c` to `c'`. */
  ghost predicate Leads(n: nat, c: Scene, actions: seq<Action>, c': Scene)
    decreases |actions|
  {
    if actions == [] then c == c'
    else exists mid :: Leads(n, c, Earlier(actions), mid) && Acts(n, mid, Latest(actions), c')
  }

  lemma LeadsOne(n: nat, c: Scene, actions: seq<Action>, mid: Scene, a: Action, c': Scene)
    requires Leads(n, c, actions, mid) && Acts(n, mid, a, c')
    ensures Leads(n, c, actions + [a], c')
  {
    assert Earlier(actions + [a]) == actions && Latest(actions + [a]) == a;
  }

  lemma {:induction false} LeadsOn(n: nat, c: Scene, first: seq<Action>, mid: Scene, rest: seq<Action>, c': Scene)
    requires Leads(n, c, first, mid) && Leads(n, mid, rest, c')
    ensures Leads(n, c, first + rest, c')
    decreases |rest|
  {
    if rest == [] {
      assert first + rest == first;
    } else {
      var before :| Leads(n, mid, Earlier(rest), before) && Acts(n, before, Latest(rest), c');
      var init, last := Earlier(rest), Latest(rest);
      LeadsOn(n, c, first, mid, init, before);
      LeadsOne(n, c, first + init, before, last, c');
      assert rest == init + [last];
      assert first + rest == first + init + [last];
    }
  }

  /** A leader's message is not handled before its view, and a PREPARE or COMMIT not after it either. */
  predicate Prompt(msg: Message, at: int) {
    msg.view <= at && (msg.kind == Prepare || msg.kind == Commit ==> msg.view == at)
  }
}
