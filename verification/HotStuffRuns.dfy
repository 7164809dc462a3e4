/** Runs of a HotStuff cluster. Correct replicas perform their actions in any order on arbitrary messages;
    faulty replicas sign what they like, put any node into the shared store and combine any shares they
    have seen. Only signatures of correct replicas cannot be made up. */
module HotStuffRuns {
  import opened HotStuffTree
  import opened HotStuffBank
  import opened HotStuffVotes
  import opened HotStuffCrypto
  import opened HotStuffNode
  import opened HotStuffEffects

  /** `signed` collects every vote ever signed. `early` leaves out the prepare votes of correct replicas that
      were already locked in the view of the vote. */
  datatype Global = Global(nodes: map<int, NodeState>, store: Tree, certs: Certificates, signed: set<Vote>, early: set<Vote>)

  datatype Event =
    | Act(p: int, a: Action, after: Scene)
    | Sign(v: Vote)
    | Store(node: TreeNode)
    | Combine(record: Record)

  ghost predicate Init(k: Cluster, g: Global) {
    && (forall p :: p in g.nodes <==> k.Correct(p))
    && (forall p :: p in g.nodes ==> g.nodes[p] == NewNode(p))
    && g.store == map[] && g.certs == map[] && g.signed == {} && g.early == {}
  }

  function SceneOf(g: Global, p: int): Scene
    requires p in g.nodes
  {
    Scene(g.nodes[p], g.store, g.certs)
  }

  ghost predicate MessageGenuine(signed: set<Vote>, msg: Message) {
    msg.sig.Some? && msg.sig.value.sig.SignedBy? ==> msg.sig.value.sig.vote in signed
  }

  /** The replica was locked in the view of the proposal before it handled the proposal. */
  predicate Late(s: NodeState, a: Action) {
    a.Handle? && a.msg.kind == Prepare && s.locked.Some? && s.locked.value.view >= a.msg.view
  }

  ghost function Performed(g: Global, p: int, a: Action, after: Scene): Global
    requires p in g.nodes
  {
    var cast := VotesIn(after.s.outbox) - g.signed;
    Global(g.nodes[p := after.s], after.store, after.certs, g.signed + cast,
           if Late(g.nodes[p], a) then g.early else g.early + cast)
  }

  ghost predicate Step(k: Cluster, g: Global, e: Event, g': Global) {
    match e
    case Act(p, a, after) =>
      && p in g.nodes && Acts(k.n, SceneOf(g, p), a, after)
      && (a.Count? ==> MessageGenuine(g.signed, a.msg)) && g' == Performed(g, p, a, after)
    case Sign(v) =>
      !k.Correct(v.signer) && g' == g.(signed := g.signed + {v}, early := g.early + {v})
    case Store(node) =>
      g' == g.(store := Stored(g.store, node))
    case Combine(record) =>
      && Combines(k.n, record.shares, record.kind, record.view, record.hash)
      && SharesGenuine(g.signed, record.shares)
      && g' == g.(certs := Registered(g.certs, record))
  }

  ghost predicate Run(k: Cluster, events: seq<Event>, states: seq<Global>) {
    && |states| == |events| + 1 && Init(k, states[0])
    && forall i :: 0 <= i < |events| ==> Step(k, states[i], events[i], states[i + 1])
  }

  /** Correct replicas handle no leader's message before its view, and PREPARE and COMMIT only in their view. */
  predicate Timely(events: seq<Event>) {
    forall i :: 0 <= i < |events| ==> TimelyEvent(events[i])
  }

  predicate TimelyEvent(e: Event) {
    e.Act? && e.a.Handle? ==> Prompt(e.a.msg, e.a.at)
  }

  // ---------- what every run keeps ----------

  ghost predicate VotedOk(signed: set<Vote>, p: int, s: NodeState) {
    forall v :: v in signed && v.signer == p ==> (v.kind, v.view) in s.voted && s.voted[(v.kind, v.view)] == v.hash
  }

  ghost predicate LockOk(k: Cluster, signed: set<Vote>, s: NodeState) {
    s.locked.Some? ==> Certified(k, signed, PreCommit, s.locked.value.view, s.locked.value.hash)
  }

  /** The executed branch ends in a node with a commit certificate. */
  ghost predicate ExecutedOk(k: Cluster, signed: set<Vote>, s: NodeState) {
    LedgerOk(s) && (s.lastExecuted == Genesis || exists view :: Certified(k, signed, Commit, view, s.lastExecuted))
  }

  ghost predicate CollectedOk(k: Cluster, signed: set<Vote>, s: NodeState) {
    forall key :: key in s.votes ==> SharesGenuine(signed, s.votes[key]) && SharesOk(k.n, s.votes[key], key.kind, key.view, key.hash)
  }

  ghost predicate NodeOk(k: Cluster, signed: set<Vote>, p: int, s: NodeState) {
    && s.id == p && Closed(s.tree) && VotesIn(s.outbox) <= signed
    && VotedOk(signed, p, s) && Climbs(k, signed, p) && LockOk(k, signed, s)
    && ExecutedOk(k, signed, s) && CollectedOk(k, signed, s)
  }

  ghost predicate SharedOk(signed: set<Vote>, store: Tree, certs: Certificates) {
    && StoreOk(store) && CertificatesGenuine(signed, certs)
    && forall t :: t in certs ==> t == DigestOf(certs[t])
  }

  ghost predicate Inv(k: Cluster, g: Global) {
    && (forall p :: p in g.nodes <==> k.Correct(p))
    && SharedOk(g.signed, g.store, g.certs)
    && forall p :: p in g.nodes ==> NodeOk(k, g.signed, p, g.nodes[p])
  }

  lemma InvOrderly(k: Cluster, g: Global)
    requires Inv(k, g)
    ensures Orderly(k, g.signed)
  {
    forall p | k.Correct(p) ensures VotesOnce(g.signed, p) && Climbs(k, g.signed, p) {
      assert NodeOk(k, g.signed, p, g.nodes[p]);
    }
  }

  // ---------- more votes of others ----------

  lemma ClimbsGrows(k: Cluster, signed: set<Vote>, more: set<Vote>, p: int)
    requires signed <= more && Climbs(k, signed, p) && forall v :: v in more && v.signer == p ==> v in signed
    ensures Climbs(k, more, p)
  {
    forall v | v in more && v.signer == p
      ensures v.kind == PreCommit ==> Certified(k, more, Prepare, v.view, v.hash)
      ensures v.kind == Commit ==> Certified(k, more, PreCommit, v.view, v.hash)
    {
      if v.kind == PreCommit { CertifiedGrows(k, signed, more, Prepare, v.view, v.hash); }
      if v.kind == Commit { CertifiedGrows(k, signed, more, PreCommit, v.view, v.hash); }
    }
  }

  lemma StateOkGrows(k: Cluster, signed: set<Vote>, more: set<Vote>, s: NodeState)
    requires signed <= more
    ensures LockOk(k, signed, s) ==> LockOk(k, more, s)
    ensures ExecutedOk(k, signed, s) ==> ExecutedOk(k, more, s)
    ensures CollectedOk(k, signed, s) ==> CollectedOk(k, more, s)
  {
    if LockOk(k, signed, s) && s.locked.Some? {
      CertifiedGrows(k, signed, more, PreCommit, s.locked.value.view, s.locked.value.hash);
    }
    if ExecutedOk(k, signed, s) && s.lastExecuted != Genesis {
      var view :| Certified(k, signed, Commit, view, s.lastExecuted);
      CertifiedGrows(k, signed, more, Commit, view, s.lastExecuted);
    }
  }

  lemma NodeOkGrows(k: Cluster, signed: set<Vote>, more: set<Vote>, p: int, s: NodeState)
    requires NodeOk(k, signed, p, s) && signed <= more && forall v :: v in more && v.signer == p ==> v in signed
    ensures NodeOk(k, more, p, s)
  {
    ClimbsGrows(k, signed, more, p);
    StateOkGrows(k, signed, more, s);
  }

  // ---------- one replica's action ----------

  /** A vote that a correct replica may add: the phase below it is certified. */
  ghost predicate MaySign(k: Cluster, signed: set<Vote>, v: Vote) {
    && (v.kind == PreCommit ==> Certified(k, signed, Prepare, v.view, v.hash))
    && (v.kind == Commit ==> Certified(k, signed, PreCommit, v.view, v.hash))
  }

  lemma KeptOk(k: Cluster, signed: set<Vote>, p: int, c: Scene, c': Scene)
    requires NodeOk(k, signed, p, c.s) && SharedOk(signed, c.store, c.certs) && Kept(c, c')
    ensures NodeOk(k, signed, p, c'.s) && SharedOk(signed, c'.store, c'.certs)
  {
  }

  lemma CastOk(k: Cluster, signed: set<Vote>, p: int, c: Scene, c': Scene, v: Vote)
    requires NodeOk(k, signed, p, c.s) && SharedOk(signed, c.store, c.certs) && Casts(c, c', v) && MaySign(k, signed, v)
    ensures NodeOk(k, signed + {v}, p, c'.s) && SharedOk(signed + {v}, c'.store, c'.certs)
  {
    var more := signed + {v};
    StateOkGrows(k, signed, more, c.s);
    assert VotedOk(more, p, c'.s);
    forall x | x in more && x.signer == p
      ensures x.kind == PreCommit ==> Certified(k, more, Prepare, x.view, x.hash)
      ensures x.kind == Commit ==> Certified(k, more, PreCommit, x.view, x.hash)
    {
      assert MaySign(k, signed, x);
      if x.kind == PreCommit { CertifiedGrows(k, signed, more, Prepare, x.view, x.hash); }
      if x.kind == Commit { CertifiedGrows(k, signed, more, PreCommit, x.view, x.hash); }
    }
  }

  /** The new votes of an action: none, or one that its replica may sign. */
  ghost predicate NewVotes(k: Cluster, signed: set<Vote>, p: int, c: Scene, a: Action, cast: set<Vote>) {
    || cast == {}
    || (&& a.Handle? && Handles(k.n, c, a.msg)
        && cast == {Vote(p, a.msg.kind, a.msg.view, Target(a.msg))} && MaySign(k, signed, Vote(p, a.msg.kind, a.msg.view, Target(a.msg)))
        && (a.msg.kind == Prepare ==> PrepareSafe(k.n, c, a.msg.node.value, a.msg.justify, a.msg.view)))
  }

  /** The message has the shape that its phase asks for. */
  predicate Handles(n: nat, c: Scene, msg: Message) {
    match msg.kind
    case Prepare => msg.node.Some?
    case PreCommit => PhaseOk(n, c, msg, Prepare)
    case Commit => PhaseOk(n, c, msg, PreCommit)
    case _ => false
  }

  /** The node that a message asks to vote for. */
  function Target(msg: Message): Hash {
    if msg.kind == Prepare && msg.node.Some? then msg.node.value.hash
    else if msg.justify.Some? then msg.justify.value.hash
    else Genesis
  }

  ghost predicate ActionOk(k: Cluster, signed: set<Vote>, p: int, c: Scene, a: Action, c': Scene) {
    var cast := VotesIn(c'.s.outbox) - signed;
    && NewVotes(k, signed, p, c, a, cast)
    && NodeOk(k, signed + cast, p, c'.s) && SharedOk(signed + cast, c'.store, c'.certs)
  }

  /** From what an action keeps or casts to what it may do. */
  lemma QuietAction(k: Cluster, signed: set<Vote>, p: int, c: Scene, a: Action, c': Scene)
    requires NodeOk(k, signed, p, c'.s) && SharedOk(signed, c'.store, c'.certs)
    ensures ActionOk(k, signed, p, c, a, c')
  {
    var cast := VotesIn(c'.s.outbox) - signed;
    assert cast == {} && signed + cast == signed;
  }

  lemma CastingAction(k: Cluster, signed: set<Vote>, p: int, c: Scene, msg: Message, at: int, c0: Scene, c': Scene)
    requires NodeOk(k, signed, p, c0.s) && SharedOk(signed, c0.store, c0.certs) && Handles(k.n, c, msg)
    requires var v := Vote(p, msg.kind, msg.view, Target(msg)); Casts(c0, c', v) && MaySign(k, signed, v)
    requires msg.kind == Prepare ==> PrepareSafe(k.n, c, msg.node.value, msg.justify, msg.view)
    ensures ActionOk(k, signed, p, c, Handle(msg, at), c')
  {
    var v := Vote(p, msg.kind, msg.view, Target(msg));
    CastOk(k, signed, p, c0, c', v);
    assert v !in signed;
    assert VotesIn(c'.s.outbox) - signed == {v};
  }

  lemma PrepareOk(k: Cluster, signed: set<Vote>, p: int, c: Scene, msg: Message, at: int)
    requires NodeOk(k, signed, p, c.s) && SharedOk(signed, c.store, c.certs) && msg.kind == Prepare
    ensures ActionOk(k, signed, p, c, Handle(msg, at), PrepareHandled(k.n, c, msg))
  {
    PrepareEffect(k.n, c, msg);
    var c' := PrepareHandled(k.n, c, msg);
    if Kept(c, c') {
      KeptOk(k, signed, p, c, c');
      QuietAction(k, signed, p, c, Handle(msg, at), c');
    } else {
      CastingAction(k, signed, p, c, msg, at, c, c');
    }
  }

  lemma PreCommitOk(k: Cluster, signed: set<Vote>, p: int, c: Scene, msg: Message, at: int)
    requires NodeOk(k, signed, p, c.s) && SharedOk(signed, c.store, c.certs) && msg.kind == PreCommit
    ensures ActionOk(k, signed, p, c, Handle(msg, at), PreCommitHandled(k.n, c, msg))
  {
    var c' := PreCommitHandled(k.n, c, msg);
    if !PhaseOk(k.n, c, msg, Prepare) {
      QuietAction(k, signed, p, c, Handle(msg, at), c');
    } else {
      var qc := msg.justify.value;
      PreCommitEffect(k.n, c, msg);
      var prepareQC :| var c0 := c.(s := c.s.(prepareQC := prepareQC));
                       Kept(c0, c') || Casts(c0, c', Vote(c.s.id, PreCommit, msg.view, qc.hash));
      var c0 := c.(s := c.s.(prepareQC := prepareQC));
      assert NodeOk(k, signed, p, c0.s);
      VerifiedIsCertified(k, signed, c.certs, qc);
      if Kept(c0, c') {
        KeptOk(k, signed, p, c0, c');
        QuietAction(k, signed, p, c, Handle(msg, at), c');
      } else {
        CastingAction(k, signed, p, c, msg, at, c0, c');
      }
    }
  }

  lemma CommitOk(k: Cluster, signed: set<Vote>, p: int, c: Scene, msg: Message, at: int)
    requires NodeOk(k, signed, p, c.s) && SharedOk(signed, c.store, c.certs) && msg.kind == Commit
    ensures ActionOk(k, signed, p, c, Handle(msg, at), CommitHandled(k.n, c, msg))
  {
    var c' := CommitHandled(k.n, c, msg);
    if !PhaseOk(k.n, c, msg, PreCommit) {
      QuietAction(k, signed, p, c, Handle(msg, at), c');
    } else {
      var qc := msg.justify.value;
      CommitEffect(k.n, c, msg);
      VerifiedIsCertified(k, signed, c.certs, qc);
      var c0 := c.(s := c.s.(locked := Some(qc)));
      assert NodeOk(k, signed, p, c0.s);
      if Kept(c0, c') {
        KeptOk(k, signed, p, c0, c');
        QuietAction(k, signed, p, c, Handle(msg, at), c');
      } else {
        CastingAction(k, signed, p, c, msg, at, c0, c');
      }
    }
  }

  lemma DecideOk(k: Cluster, signed: set<Vote>, p: int, c: Scene, msg: Message, at: int)
    requires NodeOk(k, signed, p, c.s) && SharedOk(signed, c.store, c.certs) && msg.kind == Decide
    ensures ActionOk(k, signed, p, c, Handle(msg, at), DecideHandled(k.n, c, msg))
  {
    var c' := DecideHandled(k.n, c, msg);
    if PhaseOk(k.n, c, msg, Commit) {
      DecideEffect(k.n, c, msg);
      VerifiedIsCertified(k, signed, c.certs, msg.justify.value);
      assert Certified(k, signed, Commit, msg.view, msg.justify.value.hash);
      assert ExecutedOk(k, signed, c'.s);
    }
    QuietAction(k, signed, p, c, Handle(msg, at), c');
  }

  lemma CountOk(k: Cluster, signed: set<Vote>, p: int, c: Scene, msg: Message)
    requires NodeOk(k, signed, p, c.s) && SharedOk(signed, c.store, c.certs) && MessageGenuine(signed, msg)
    ensures ActionOk(k, signed, p, c, Count(msg), VoteHandled(k.n, c, msg))
  {
    var c' := VoteHandled(k.n, c, msg);
    CountEffect(k.n, c, msg);
    if VoteWellFormed(k.n, c, msg) {
      CountedOk(k, signed, Accepted(c, msg.node.value), Key(msg.kind, msg.view, msg.node.value.hash), msg.sig.value);
    }
    QuietAction(k, signed, p, c, Count(msg), c');
  }

  lemma CountedOk(k: Cluster, signed: set<Vote>, c: Scene, key: Key, share: Share)
    requires CollectedOk(k, signed, c.s) && SharedOk(signed, c.store, c.certs)
    requires share.sig.SignedBy? ==> share.sig.vote in signed
    ensures var c' := VoteCounted(k.n, c, key, share);
            CollectedOk(k, signed, c'.s) && SharedOk(signed, c'.store, c'.certs)
  {
    if ShareOk(k.n, share, key.kind, key.view, key.hash) {
      FormedOk(k, signed, c.(s := c.s.(votes := c.s.votes[key := VotesFor(c.s, key)[share.signer := share]])), key);
    }
  }

  lemma FormedOk(k: Cluster, signed: set<Vote>, c: Scene, key: Key)
    requires CollectedOk(k, signed, c.s) && SharedOk(signed, c.store, c.certs)
    ensures var c' := Formed(k.n, c, key);
            CollectedOk(k, signed, c'.s) && SharedOk(signed, c'.store, c'.certs)
  {
    assert SharesGenuine(signed, VotesFor(c.s, key));
  }

  lemma OtherActionsOk(k: Cluster, signed: set<Vote>, p: int, c: Scene, a: Action, c': Scene)
    requires NodeOk(k, signed, p, c.s) && SharedOk(signed, c.store, c.certs) && Acts(k.n, c, a, c') && !a.Handle? && !a.Count?
    ensures ActionOk(k, signed, p, c, a, c')
  {
    match a {
      case Propose(high) => ProposeEffect(k.n, c, high);
      case Enter(view) => EnterEffect(k.n, c, view);
      case _ =>
    }
    QuietAction(k, signed, p, c, a, c');
  }

  lemma ActOk(k: Cluster, signed: set<Vote>, p: int, c: Scene, a: Action, c': Scene)
    requires NodeOk(k, signed, p, c.s) && SharedOk(signed, c.store, c.certs) && Acts(k.n, c, a, c')
    requires a.Count? ==> MessageGenuine(signed, a.msg)
    ensures ActionOk(k, signed, p, c, a, c')
  {
    match a {
      case Handle(msg, at) =>
        if msg.sender != Leader(k.n, msg.view) || msg.kind == NewView {
          QuietAction(k, signed, p, c, a, c');
        } else {
          match msg.kind {
            case Prepare => PrepareOk(k, signed, p, c, msg, at);
            case PreCommit => PreCommitOk(k, signed, p, c, msg, at);
            case Commit => CommitOk(k, signed, p, c, msg, at);
            case Decide => DecideOk(k, signed, p, c, msg, at);
          }
        }
      case Count(msg) => CountOk(k, signed, p, c, msg);
      case _ => OtherActionsOk(k, signed, p, c, a, c');
    }
  }

  // ---------- whole runs ----------

  lemma ActKeeps(k: Cluster, g: Global, e: Event, g': Global)
    requires Inv(k, g) && Step(k, g, e, g') && e.Act?
    ensures Inv(k, g')
  {
    ActOk(k, g.signed, e.p, SceneOf(g, e.p), e.a, e.after);
    forall q | q in g'.nodes ensures NodeOk(k, g'.signed, q, g'.nodes[q]) {
      if q != e.p {
        NodeOkGrows(k, g.signed, g'.signed, q, g.nodes[q]);
      }
    }
  }

  lemma StepKeeps(k: Cluster, g: Global, e: Event, g': Global)
    requires Inv(k, g) && Step(k, g, e, g')
    ensures Inv(k, g')
  {
    match e {
      case Act(p, a, after) => ActKeeps(k, g, e, g');
      case Sign(v) =>
        forall q | q in g'.nodes ensures NodeOk(k, g'.signed, q, g'.nodes[q]) {
          NodeOkGrows(k, g.signed, g'.signed, q, g.nodes[q]);
        }
      case Store(node) => StoredOk(g.store, node);
      case Combine(record) =>
    }
  }

  lemma {:induction false} RunKeeps(k: Cluster, events: seq<Event>, states: seq<Global>, i: nat)
    requires Run(k, events, states) && i <= |events|
    ensures Inv(k, states[i])
  {
    if i == 0 {
      InitOk(k, states[0]);
    } else {
      RunKeeps(k, events, states, i - 1);
      StepKeeps(k, states[i - 1], events[i - 1], states[i]);
    }
  }

  lemma InitOk(k: Cluster, g: Global)
    requires Init(k, g)
    ensures Inv(k, g)
  {
    forall p | p in g.nodes ensures NodeOk(k, g.signed, p, g.nodes[p]) {
      assert VotesIn([]) == {};
      assert AppliedAll(NEW_LEDGER, []) == NEW_LEDGER;
    }
  }
}
