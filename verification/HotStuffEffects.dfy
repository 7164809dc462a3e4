/** What each action of a HotStuff replica changes, in the terms that the safety argument needs: the tree
    stays closed, at most one vote is signed, and a prepare vote obeys the lock. */
module HotStuffEffects {
  import opened HotStuffTree
  import opened HotStuffBank
  import opened HotStuffVotes
  import opened HotStuffCrypto
  import opened HotStuffNode

  ghost predicate TreeOk(c: Scene) {
    Closed(c.s.tree) && StoreOk(c.store)
  }

  ghost function VotesIn(outbox: seq<Sent>): set<Vote> {
    set m | m in outbox && m.msg.sig.Some? && m.msg.sig.value.sig.SignedBy? :: m.msg.sig.value.sig.vote
  }

  ghost predicate TreeGrows(c: Scene, c': Scene) {
    TreeOk(c') && forall h :: Known(c.s.tree, h) ==> Known(c'.s.tree, h)
  }

  /** Nothing but the tree, the store and the phase changed. */
  ghost predicate Kept(c: Scene, c': Scene) {
    && TreeGrows(c, c') && c'.certs == c.certs
    && c'.s == c.s.(tree := c'.s.tree, phase := c'.s.phase)
  }

  /** Besides the tree, the store and the phase, only the vote `v` is new. */
  ghost predicate Casts(c: Scene, c': Scene, v: Vote) {
    && TreeGrows(c, c') && c'.certs == c.certs
    && c'.s == c.s.(tree := c'.s.tree, phase := c'.s.phase, voted := c'.s.voted, outbox := c'.s.outbox)
    && v.signer == c.s.id && (v.kind, v.view) !in c.s.voted && c'.s.voted == c.s.voted[(v.kind, v.view) := v.hash]
    && VotesIn(c'.s.outbox) == VotesIn(c.s.outbox) + {v}
  }

  lemma VotesInLonger(outbox: seq<Sent>, m: Sent)
    ensures VotesIn(outbox + [m]) ==
            VotesIn(outbox) + if m.msg.sig.Some? && m.msg.sig.value.sig.SignedBy? then {m.msg.sig.value.sig.vote} else {}
  {
    assert forall x :: x in outbox + [m] <==> x in outbox || x == m;
  }

  // ---------- the tree ----------

  lemma EnsuredKeeps(c: Scene, h: Hash)
    requires TreeOk(c)
    ensures Kept(c, Ensured(c, h)) && Ensured(c, h).store == c.store
    ensures CanEnsure(c, h) ==> Known(Ensured(c, h).s.tree, h)
  {
    if CanEnsure(c, h) {
      GrownAddsBranch(c.s.tree, c.store, h);
    }
  }

  lemma AcceptedKeeps(c: Scene, node: TreeNode)
    requires TreeOk(c)
    ensures Kept(c, Accepted(c, node))
    ensures Acceptable(c, node) ==> node.hash in Accepted(c, node).s.tree
  {
    if Acceptable(c, node) {
      EnsuredKeeps(c, node.parent);
      StoredOk(c.store, node);
    }
  }

  lemma SearchedKeeps(c: Scene, d: Hash, a: Hash)
    requires TreeOk(c)
    ensures Kept(c, Searched(c, d, a))
  {
    EnsuredKeeps(c, d);
    EnsuredKeeps(Ensured(c, d), a);
  }

  /** The ancestry check decides the ancestor relation for nodes that the replica holds. */
  lemma ExtendsFromIsExtends(c: Scene, d: Hash, a: Hash)
    requires TreeOk(c) && Known(c.s.tree, d) && Known(c.s.tree, a)
    ensures ExtendsFrom(c, d, a) <==> Extends(d, a)
  {
    ClosedHoldsAncestors(c.s.tree, d);
  }

  /** Only a node that can be obtained can extend anything but the genesis node. */
  lemma ExtendsFromSound(c: Scene, d: Hash, a: Hash)
    requires TreeOk(c) && Known(c.s.tree, d) && ExtendsFrom(c, d, a)
    ensures Extends(d, a)
  {
    ClosedHoldsAncestors(c.s.tree, d);
  }

  // ---------- voting ----------

  lemma CastEffect(c: Scene, kind: Kind, view: int, hash: Hash, leader: int)
    requires TreeOk(c)
    ensures var c' := VoteCast(c, kind, view, hash, leader);
            if MayVote(c, kind, view, hash) then Casts(c, c', Vote(c.s.id, kind, view, hash)) else c' == c
  {
    if MayVote(c, kind, view, hash) {
      EnsuredKeeps(c, hash);
      var c1 := Ensured(c, hash);
      VotesInLonger(c1.s.outbox, To(leader, VoteMessage(c1.s, kind, view, hash)));
    }
  }

  lemma KeptThenCast(c: Scene, c1: Scene, c2: Scene, v: Vote)
    requires Kept(c, c1) && Casts(c1, c2, v)
    ensures Casts(c, c2, v)
  {
  }

  /** Why a correct replica votes to prepare `node`: its parent is certified, and it extends the locked node
      or the certificate is newer than the lock. */
  ghost predicate PrepareSafe(n: nat, c: Scene, node: TreeNode, justify: Option<QC>, view: int) {
    && node.hash == HashOf(node) && node.parent == JustifiedParent(justify)
    && (justify.Some? ==> justify.value.kind == Prepare && justify.value.view < view && Verifies(n, c.certs, justify.value))
    && (c.s.locked.Some? ==>
          || Extends(node.hash, c.s.locked.value.hash)
          || (justify.Some? && justify.value.view > c.s.locked.value.view))
  }

  lemma PrepareCheckedEffect(n: nat, c: Scene, node: TreeNode, justify: Option<QC>, view: int, sender: int)
    requires TreeOk(c) && node.hash == HashOf(node) && node.hash in c.s.tree
    ensures var c' := PrepareChecked(n, c, node, justify, view, sender);
            || Kept(c, c')
            || (Casts(c, c', Vote(c.s.id, Prepare, view, node.hash)) && PrepareSafe(n, c, node, justify, view))
  {
    if JustifyOk(n, c, justify, view) && node.parent == JustifiedParent(justify) {
      var c1 := if justify.Some? then Ensured(c, justify.value.hash) else c;
      EnsuredKeeps(c, JustifiedParent(justify));
      var c2 := SafetyChecked(c1, node.hash);
      if c.s.locked.Some? {
        SearchedKeeps(c1, node.hash, c.s.locked.value.hash);
      }
      if SafeNode(c1, node.hash, justify) {
        if c.s.locked.Some? && ExtendsFrom(c1, node.hash, c.s.locked.value.hash) {
          ExtendsFromSound(c1, node.hash, c.s.locked.value.hash);
        }
        PrepareCastEffect(c, c2, view, node.hash, sender);
      }
    } else {
      EnsuredKeeps(c, JustifiedParent(justify));
    }
  }

  lemma PrepareCastEffect(c: Scene, c2: Scene, view: int, hash: Hash, sender: int)
    requires Kept(c, c2)
    ensures var c' := VoteCast(c2.(s := c2.s.(phase := Prepare)), Prepare, view, hash, sender);
            Kept(c, c') || Casts(c, c', Vote(c.s.id, Prepare, view, hash))
  {
    var c3 := c2.(s := c2.s.(phase := Prepare));
    CastEffect(c3, Prepare, view, hash, sender);
    if MayVote(c3, Prepare, view, hash) {
      KeptThenCast(c, c3, VoteCast(c3, Prepare, view, hash, sender), Vote(c.s.id, Prepare, view, hash));
    }
  }

  lemma PrepareEffect(n: nat, c: Scene, msg: Message)
    requires TreeOk(c)
    ensures var c' := PrepareHandled(n, c, msg);
            || Kept(c, c')
            || (&& msg.node.Some? && Casts(c, c', Vote(c.s.id, Prepare, msg.view, msg.node.value.hash))
                && PrepareSafe(n, c, msg.node.value, msg.justify, msg.view))
  {
    if !(msg.node.None? || msg.sig.Some? || msg.isVote) && Acceptable(c, msg.node.value) {
      AcceptedKeeps(c, msg.node.value);
      var c1 := Accepted(c, msg.node.value);
      PrepareCheckedEffect(n, c1, msg.node.value, msg.justify, msg.view, msg.sender);
      var c' := PrepareHandled(n, c, msg);
      if !Kept(c1, c') {
        KeptThenCast(c, c1, c', Vote(c.s.id, Prepare, msg.view, msg.node.value.hash));
      }
    }
  }

  lemma PreCommitEffect(n: nat, c: Scene, msg: Message)
    requires TreeOk(c) && PhaseOk(n, c, msg, Prepare)
    ensures var qc := msg.justify.value;
            var c' := PreCommitHandled(n, c, msg);
            exists prepareQC ::
              var c0 := c.(s := c.s.(prepareQC := prepareQC));
              (prepareQC == c.s.prepareQC || prepareQC == Some(qc)) &&
              (Kept(c0, c') || Casts(c0, c', Vote(c.s.id, PreCommit, msg.view, qc.hash)))
  {
    var qc := msg.justify.value;
    EnsuredKeeps(c, qc.hash);
    var c1 := Ensured(c, qc.hash);
    var newer := c1.s.prepareQC.None? || qc.view > c1.s.prepareQC.value.view;
    var prepareQC := if newer then Some(qc) else c.s.prepareQC;
    var c0 := c.(s := c.s.(prepareQC := prepareQC));
    var c2 := c1.(s := c1.s.(prepareQC := prepareQC, phase := PreCommit));
    assert Kept(c0, c2);
    CastEffect(c2, PreCommit, msg.view, qc.hash, msg.sender);
  }

  lemma CommitEffect(n: nat, c: Scene, msg: Message)
    requires TreeOk(c) && PhaseOk(n, c, msg, PreCommit)
    ensures var qc := msg.justify.value;
            var c' := CommitHandled(n, c, msg);
            var c0 := c.(s := c.s.(locked := Some(qc)));
            Kept(c0, c') || Casts(c0, c', Vote(c.s.id, Commit, msg.view, qc.hash))
  {
    var qc := msg.justify.value;
    EnsuredKeeps(c, qc.hash);
    var c1 := Ensured(c, qc.hash);
    var c0 := c.(s := c.s.(locked := Some(qc)));
    var c2 := c1.(s := c1.s.(locked := Some(qc), phase := Commit));
    assert Kept(c0, c2);
    CastEffect(c2, Commit, msg.view, qc.hash, msg.sender);
  }

  // ---------- execution ----------

  /** The bank and the seen IDs are those of the branch up to the last executed node. */
  ghost predicate LedgerOk(s: NodeState) {
    Known(s.tree, s.lastExecuted) && s.ledger == AppliedAll(NEW_LEDGER, Path(s.lastExecuted))
  }

  /** Only the tree, the phase and the executed branch changed; the branch was at most prolonged, up to `h`. */
  ghost predicate Executes(c: Scene, c': Scene, h: Hash) {
    && TreeGrows(c, c') && c'.certs == c.certs
    && c'.s == c.s.(tree := c'.s.tree, phase := c'.s.phase, ledger := c'.s.ledger, lastExecuted := c'.s.lastExecuted)
    && (c'.s.lastExecuted == c.s.lastExecuted || c'.s.lastExecuted == h)
    && Extends(c'.s.lastExecuted, c.s.lastExecuted) && LedgerOk(c'.s)
  }

  lemma FreshCompletes(s: NodeState, h: Hash)
    requires LedgerOk(s) && Extends(h, s.lastExecuted)
    ensures AppliedAll(s.ledger, Fresh(s, h)) == AppliedAll(NEW_LEDGER, Path(h))
  {
    AncestorPathIsPrefix(h, s.lastExecuted);
    var done := Path(s.lastExecuted);
    assert Path(h) == done + Path(h)[|done|..];
    AppliedAllSplit(NEW_LEDGER, done, Path(h)[|done|..]);
  }

  lemma AdvancedEffect(c: Scene, c1: Scene, h: Hash)
    requires Kept(c, c1) && LedgerOk(c.s) && Known(c1.s.tree, h) && Extends(h, c.s.lastExecuted)
    ensures Executes(c, Advanced(c1, h), h)
  {
    FreshCompletes(c1.s, h);
  }

  lemma ExecutedEffect(c: Scene, h: Hash)
    requires TreeOk(c) && LedgerOk(c.s)
    ensures Executes(c, ExecutedThrough(c, h), h)
    ensures ExecutedThrough(c, h).s.lastExecuted == if CanExecute(c, h) then h else c.s.lastExecuted
  {
    if h != c.s.lastExecuted {
      EnsuredKeeps(c, h);
      if CanExecute(c, h) {
        AdvancedEffect(c, Ensured(c, h), h);
        assert ExecutedThrough(c, h) == Advanced(Ensured(c, h), h);
      }
    }
  }

  lemma DecideEffect(n: nat, c: Scene, msg: Message)
    requires TreeOk(c) && LedgerOk(c.s) && PhaseOk(n, c, msg, Commit)
    ensures Executes(c, DecideHandled(n, c, msg), msg.justify.value.hash)
  {
    var h := msg.justify.value.hash;
    EnsuredKeeps(c, h);
    var c1 := Ensured(c, h);
    ExecutedEffect(c1.(s := c1.s.(phase := Decide)), h);
  }

  // ---------- any leader's message ----------

  /** Handling `msg` leaves the view and the buffers alone, votes at most in the message's view, and moves the
      lock, if at all, to that view. */
  ghost predicate StaysInView(s: NodeState, s': NodeState, msg: Message) {
    && s'.view == s.view && s'.future == s.future
    && (s'.locked == s.locked || (s'.locked.Some? && s'.locked.value.view == msg.view))
    && forall key :: key in s'.voted ==> key in s.voted || key.1 == msg.view
  }

  lemma PreCommitStays(n: nat, c: Scene, msg: Message)
    requires TreeOk(c) && PhaseOk(n, c, msg, Prepare)
    ensures StaysInView(c.s, PreCommitHandled(n, c, msg).s, msg)
  {
    PreCommitEffect(n, c, msg);
  }

  lemma CommitStays(n: nat, c: Scene, msg: Message)
    requires TreeOk(c) && PhaseOk(n, c, msg, PreCommit)
    ensures StaysInView(c.s, CommitHandled(n, c, msg).s, msg)
  {
    CommitEffect(n, c, msg);
  }

  lemma PrepareStays(n: nat, c: Scene, msg: Message)
    requires TreeOk(c)
    ensures StaysInView(c.s, PrepareHandled(n, c, msg).s, msg)
  {
    PrepareEffect(n, c, msg);
  }

  lemma HandledEffect(n: nat, c: Scene, msg: Message)
    requires TreeOk(c) && LedgerOk(c.s)
    ensures StaysInView(c.s, ReplicaHandled(n, c, msg).s, msg)
  {
    match msg.kind {
      case Prepare => PrepareStays(n, c, msg);
      case PreCommit => if PhaseOk(n, c, msg, Prepare) { PreCommitStays(n, c, msg); }
      case Commit => if PhaseOk(n, c, msg, PreCommit) { CommitStays(n, c, msg); }
      case Decide => if PhaseOk(n, c, msg, Commit) { DecideEffect(n, c, msg); }
      case NewView =>
    }
  }

  // ---------- the leader ----------

  lemma CountEffect(n: nat, c: Scene, msg: Message)
    requires TreeOk(c)
    ensures var c' := VoteHandled(n, c, msg);
            && TreeGrows(c, c') && VotesIn(c'.s.outbox) == VotesIn(c.s.outbox)
            && c'.s == c.s.(tree := c'.s.tree, phase := c'.s.phase, votes := c'.s.votes, formed := c'.s.formed, outbox := c'.s.outbox)
  {
    if VoteWellFormed(n, c, msg) {
      AcceptedKeeps(c, msg.node.value);
      var c1 := Accepted(c, msg.node.value);
      var key := Key(msg.kind, msg.view, msg.node.value.hash);
      CountedEffect(n, c1, key, msg.sig.value);
    }
  }

  lemma CountedEffect(n: nat, c: Scene, key: Key, share: Share)
    ensures var c' := VoteCounted(n, c, key, share);
            && c'.store == c.store && VotesIn(c'.s.outbox) == VotesIn(c.s.outbox)
            && c'.s == c.s.(phase := c'.s.phase, votes := c'.s.votes, formed := c'.s.formed, outbox := c'.s.outbox)
  {
    FormedEffect(n, c.(s := c.s.(votes := c.s.votes[key := VotesFor(c.s, key)[share.signer := share]])), key);
  }

  lemma FormedEffect(n: nat, c: Scene, key: Key)
    ensures var c' := Formed(n, c, key);
            && c'.store == c.store && VotesIn(c'.s.outbox) == VotesIn(c.s.outbox)
            && c'.s == c.s.(phase := c'.s.phase, formed := c'.s.formed, outbox := c'.s.outbox)
  {
    var c' := Formed(n, c, key);
    if c'.s.outbox != c.s.outbox {
      VotesInLonger(c.s.outbox, c'.s.outbox[|c.s.outbox|]);
    }
  }

  lemma ProposeEffect(n: nat, c: Scene, high: Option<QC>)
    requires TreeOk(c)
    ensures var c' := Proposed(n, c, high);
            && TreeGrows(c, c') && VotesIn(c'.s.outbox) == VotesIn(c.s.outbox) && c'.certs == c.certs
            && c'.s == c.s.(tree := c'.s.tree, phase := c'.s.phase, proposed := c'.s.proposed, outbox := c'.s.outbox)
  {
    var c' := Proposed(n, c, high);
    if c' != c {
      EnsuredKeeps(c, JustifiedParent(high));
      var node := Proposal(c, JustifiedParent(high), NextPending(c.s.pending, c.s.ledger.seen).value);
      StoredOk(c.store, node);
      VotesInLonger(c.s.outbox, ToAll(Message(Prepare, c.s.view, Some(node), high, c.s.id, None, false)));
    }
  }

  lemma EnterEffect(n: nat, c: Scene, view: int)
    ensures VotesIn(Entered(n, c, view).s.outbox) == VotesIn(c.s.outbox)
  {
    var report := Report(n, c.s, view);
    if report == [] {
      assert c.s.outbox + report == c.s.outbox;
    } else {
      VotesInLonger(c.s.outbox, report[0]);
    }
  }
}
