/** What a call of a replica's handlers does, as a relation: which messages it handles and in what order. A
    view change replays the messages buffered for the new view one after another; a DECIDE among them that
    executes its branch enters the next view, and replays what is buffered there, before the rest of the batch
    is looked at. */
module HotStuffCalls {
  import opened HotStuffTree
  import opened HotStuffVotes
  import opened HotStuffCrypto
  import opened HotStuffNode

  datatype Call = Deliver(msg: Message) | Timeout(view: int) | Client(cmd: Command)

  /** The message makes the replica execute a branch and enter the next view. */
  predicate Decides(n: nat, c: Scene, msg: Message) {
    && msg.sender == Leader(n, msg.view) && msg.kind == Decide && PhaseOk(n, c, msg, Commit)
    && Extends(msg.justify.value.hash, c.s.lastExecuted)
  }

  /** Entering `view` moves there, replays its batch and tries to propose; `trail` lists the actions. */
  ghost predicate EntersBy(n: nat, c: Scene, view: int, trail: seq<Action>, c': Scene)
    decreases |trail|, 0, 0
  {
    if view <= c.s.view then trail == [] && c' == c
    else
      && |trail| >= 2 && trail[0] == Enter(view) && Latest(trail).Propose?
      && exists mid ::
           ReplaysBy(n, Entered(n, c, view), Batch(c.s, view), trail[1..|trail| - 1], mid) && Acts(n, mid, Latest(trail), c')
  }

  /** The messages of the batch are taken in order, whatever view the replica is in by then. */
  ghost predicate ReplaysBy(n: nat, c: Scene, batch: seq<Message>, trail: seq<Action>, c': Scene)
    decreases |trail|, |batch|, 3
  {
    if batch == [] then trail == [] && c' == c
    else
      var init, last := batch[..|batch| - 1], batch[|batch| - 1];
      exists first, mid, rest {:trigger ReplaysBy(n, c, init, first, mid), TakesBy(n, mid, last, rest, c')} ::
        first + rest == trail && ReplaysBy(n, c, init, first, mid) && TakesBy(n, mid, last, rest, c')
  }

  ghost predicate TakesBy(n: nat, c: Scene, msg: Message, trail: seq<Action>, c': Scene)
    decreases |trail|, 0, 2
  {
    if msg.isVote then trail == [Count(msg)] && c' == VoteHandled(n, c, msg) else HandlesBy(n, c, msg, trail, c')
  }

  /** A DECIDE that executes its branch goes on to the next view. */
  ghost predicate HandlesBy(n: nat, c: Scene, msg: Message, trail: seq<Action>, c': Scene)
    decreases |trail|, 0, 1
  {
    && trail != [] && trail[0] == Handle(msg, c.s.view)
    && var handled := ReplicaHandled(n, c, msg);
       if Decides(n, c, msg) then EntersBy(n, handled, msg.view + 1, trail[1..], c')
       else |trail| == 1 && c' == handled
  }

  /** A NEW-VIEW message for the current view may complete a quorum for a proposal. */
  ghost predicate ReportsBy(n: nat, c: Scene, msg: Message, trail: seq<Action>, c': Scene) {
    if ReportOk(n, c, msg) && msg.view + 1 == c.s.view then
      |trail| == 2 && trail[0] == Keep(msg) && trail[1].Propose? && Acts(n, Reported(n, c, msg), trail[1], c')
    else trail == [Keep(msg)] && c' == Reported(n, c, msg)
  }

  ghost predicate QueuesBy(n: nat, c: Scene, cmd: Command, trail: seq<Action>, c': Scene) {
    if cmd.id == "" || cmd.id in c.s.known then trail == [] && c' == c
    else |trail| == 2 && trail[0] == Queue(cmd) && trail[1].Propose? && Acts(n, Queued(c, cmd), trail[1], c')
  }

  /** The call performs the actions of `trail` and ends in `c'`. */
  ghost predicate Answers(n: nat, c: Scene, call: Call, trail: seq<Action>, c': Scene) {
    match call
    case Deliver(msg) =>
      if !(0 <= msg.sender < n) then trail == [] && c' == c
      else if msg.kind == NewView then ReportsBy(n, c, msg, trail, c')
      else if msg.view > c.s.view then trail == [Buffer(msg)] && c' == Buffered(c, msg)
      else if msg.view < c.s.view then trail == [] && c' == c
      else TakesBy(n, c, msg, trail, c')
    case Timeout(view) =>
      if view != c.s.view then trail == [] && c' == c else EntersBy(n, c, view + 1, trail, c')
    case Client(cmd) => QueuesBy(n, c, cmd, trail, c')
  }

  // ---------- building the relation ----------

  lemma ReplaysMore(n: nat, c: Scene, batch: seq<Message>, trail: seq<Action>, mid: Scene, msg: Message, more: seq<Action>, c': Scene)
    requires ReplaysBy(n, c, batch, trail, mid) && TakesBy(n, mid, msg, more, c')
    ensures ReplaysBy(n, c, batch + [msg], trail + more, c')
  {
    var longer := batch + [msg];
    assert longer[..|longer| - 1] == batch;
    assert ReplaysBy(n, c, longer[..|longer| - 1], trail, mid) && TakesBy(n, mid, longer[|longer| - 1], more, c');
  }

  lemma EntersOn(n: nat, c: Scene, view: int, trail: seq<Action>, mid: Scene, high: Option<QC>, c': Scene)
    requires view > c.s.view && ReplaysBy(n, Entered(n, c, view), Batch(c.s, view), trail, mid) && Acts(n, mid, Propose(high), c')
    ensures EntersBy(n, c, view, [Enter(view)] + trail + [Propose(high)], c')
  {
    var all := [Enter(view)] + trail + [Propose(high)];
    assert all[1..|all| - 1] == trail && Latest(all) == Propose(high);
  }

  // ---------- a call is a sequence of actions ----------

  lemma LeadsFirst(n: nat, c: Scene, a: Action, mid: Scene, rest: seq<Action>, c': Scene)
    requires Acts(n, c, a, mid) && Leads(n, mid, rest, c')
    ensures Leads(n, c, [a] + rest, c')
  {
    var nothing: seq<Action> := [];
    LeadsOne(n, c, nothing, c, a, mid);
    assert nothing + [a] == [a];
    LeadsOn(n, c, [a], mid, rest, c');
  }

  lemma LeadsAround(n: nat, c: Scene, a: Action, c1: Scene, inner: seq<Action>, c2: Scene, b: Action, c': Scene)
    requires Acts(n, c, a, c1) && Leads(n, c1, inner, c2) && Acts(n, c2, b, c')
    ensures Leads(n, c, [a] + inner + [b], c')
  {
    LeadsFirst(n, c, a, c1, inner, c2);
    LeadsOne(n, c, [a] + inner, c2, b, c');
  }

  /** Between the move and the proposal, the trail of a view change replays the batch. */
  lemma EnteredBetween(n: nat, c: Scene, view: int, trail: seq<Action>, c': Scene) returns (inner: seq<Action>, mid: Scene)
    requires EntersBy(n, c, view, trail, c') && view > c.s.view
    ensures |trail| == |inner| + 2 && Latest(trail).Propose? && trail == [Enter(view)] + inner + [Latest(trail)]
    ensures ReplaysBy(n, Entered(n, c, view), Batch(c.s, view), inner, mid) && Acts(n, mid, Latest(trail), c')
  {
    inner := trail[1..|trail| - 1];
    mid :| ReplaysBy(n, Entered(n, c, view), Batch(c.s, view), inner, mid) && Acts(n, mid, Latest(trail), c');
  }

  lemma {:induction false} EntersLeads(n: nat, c: Scene, view: int, trail: seq<Action>, c': Scene)
    requires EntersBy(n, c, view, trail, c')
    ensures Leads(n, c, trail, c')
    decreases |trail|, 0, 0
  {
    if view > c.s.view {
      var inner, mid := EnteredBetween(n, c, view, trail, c');
      ReplaysLeads(n, Entered(n, c, view), Batch(c.s, view), inner, mid);
      LeadsAround(n, c, Enter(view), Entered(n, c, view), inner, mid, Latest(trail), c');
    }
  }

  lemma {:induction false} ReplaysLeads(n: nat, c: Scene, batch: seq<Message>, trail: seq<Action>, c': Scene)
    requires ReplaysBy(n, c, batch, trail, c')
    ensures Leads(n, c, trail, c')
    decreases |trail|, |batch|, 3
  {
    if batch != [] {
      var init, msg := batch[..|batch| - 1], batch[|batch| - 1];
      var first, mid, rest :| first + rest == trail && ReplaysBy(n, c, init, first, mid) && TakesBy(n, mid, msg, rest, c');
      ReplaysLeads(n, c, init, first, mid);
      TakesLeads(n, mid, msg, rest, c');
      LeadsOn(n, c, first, mid, rest, c');
    }
  }

  lemma {:induction false} TakesLeads(n: nat, c: Scene, msg: Message, trail: seq<Action>, c': Scene)
    requires TakesBy(n, c, msg, trail, c')
    ensures Leads(n, c, trail, c')
    decreases |trail|, 0, 2
  {
    if msg.isVote {
      OneLeads(n, c, Count(msg), c');
    } else {
      HandlesLeads(n, c, msg, trail, c');
    }
  }

  lemma {:induction false} HandlesLeads(n: nat, c: Scene, msg: Message, trail: seq<Action>, c': Scene)
    requires HandlesBy(n, c, msg, trail, c')
    ensures Leads(n, c, trail, c')
    decreases |trail|, 0, 1
  {
    var handled := ReplicaHandled(n, c, msg);
    if Decides(n, c, msg) {
      EntersLeads(n, handled, msg.view + 1, trail[1..], c');
    }
    assert Leads(n, handled, trail[1..], c');
    LeadsFirst(n, c, Handle(msg, c.s.view), handled, trail[1..], c');
    assert [trail[0]] + trail[1..] == trail;
  }

  lemma ReportsLeads(n: nat, c: Scene, msg: Message, trail: seq<Action>, c': Scene)
    requires ReportsBy(n, c, msg, trail, c')
    ensures Leads(n, c, trail, c')
  {
    if |trail| == 2 {
      TwoLead(n, c, Keep(msg), Reported(n, c, msg), trail[1], c');
      assert trail == [Keep(msg), trail[1]];
    } else {
      OneLeads(n, c, Keep(msg), c');
    }
  }

  lemma QueuesLeads(n: nat, c: Scene, cmd: Command, trail: seq<Action>, c': Scene)
    requires QueuesBy(n, c, cmd, trail, c')
    ensures Leads(n, c, trail, c')
  {
    if trail != [] {
      TwoLead(n, c, Queue(cmd), Queued(c, cmd), trail[1], c');
      assert trail == [Queue(cmd), trail[1]];
    }
  }

  /** Whatever a call does is a sequence of the replica's actions. */
  lemma AnswersLeads(n: nat, c: Scene, call: Call, trail: seq<Action>, c': Scene)
    requires Answers(n, c, call, trail, c')
    ensures Leads(n, c, trail, c')
  {
    match call {
      case Deliver(msg) =>
        if 0 <= msg.sender < n {
          if msg.kind == NewView {
            ReportsLeads(n, c, msg, trail, c');
          } else if msg.view > c.s.view {
            OneLeads(n, c, Buffer(msg), c');
          } else if msg.view == c.s.view {
            TakesLeads(n, c, msg, trail, c');
          }
        }
      case Timeout(view) => if view == c.s.view { EntersLeads(n, c, view + 1, trail, c'); }
      case Client(cmd) => QueuesLeads(n, c, cmd, trail, c');
    }
  }

  lemma OneLeads(n: nat, c: Scene, a: Action, c': Scene)
    requires Acts(n, c, a, c')
    ensures Leads(n, c, [a], c')
  {
    var nothing: seq<Action> := [];
    LeadsOne(n, c, nothing, c, a, c');
    assert nothing + [a] == [a];
  }

  lemma TwoLead(n: nat, c: Scene, a: Action, mid: Scene, b: Action, c': Scene)
    requires Acts(n, c, a, mid) && Acts(n, mid, b, c')
    ensures Leads(n, c, [a, b], c')
  {
    OneLeads(n, mid, b, c');
    LeadsFirst(n, c, a, mid, [b], c');
    assert [a] + [b] == [a, b];
  }

  // ---------- when a call is in time ----------

  predicate InTime(trail: seq<Action>) {
    forall a :: a in trail && a.Handle? ==> Prompt(a.msg, a.at)
  }

  /** Every buffered message waits for its own view. */
  ghost predicate Filed(future: map<int, seq<Message>>) {
    forall v, i :: v in future && 0 <= i < |future[v]| ==> future[v][i].view == v
  }

  /** No PREPARE or COMMIT waits behind a DECIDE of its view. */
  ghost predicate Tidy(future: map<int, seq<Message>>) {
    forall v :: v in future ==> TidyBatch(future[v])
  }

  ghost predicate TidyBatch(batch: seq<Message>) {
    forall i, j :: 0 <= i < j < |batch| && IsDecide(batch[i]) ==> !AsksForVote(batch[j])
  }

  predicate IsDecide(msg: Message) {
    !msg.isVote && msg.kind == Decide
  }

  predicate AsksForVote(msg: Message) {
    !msg.isVote && (msg.kind == Prepare || msg.kind == Commit)
  }

  ghost predicate InPlace(c: Scene, c': Scene) {
    c'.s.view == c.s.view && c'.s.future == c.s.future
  }

  lemma CastInPlace(c: Scene, kind: Kind, view: int, hash: Hash, leader: int)
    ensures InPlace(c, VoteCast(c, kind, view, hash, leader))
  {
  }

  lemma CheckedInPlace(n: nat, c: Scene, node: TreeNode, justify: Option<QC>, view: int, sender: int)
    ensures InPlace(c, PrepareChecked(n, c, node, justify, view, sender))
  {
    if JustifyOk(n, c, justify, view) {
      var c1 := if justify.Some? then Ensured(c, justify.value.hash) else c;
      var c2 := SafetyChecked(c1, node.hash);
      assert InPlace(c, c2);
      CastInPlace(c2.(s := c2.s.(phase := Prepare)), Prepare, view, node.hash, sender);
    }
  }

  lemma PrepareInPlace(n: nat, c: Scene, msg: Message)
    ensures InPlace(c, PrepareHandled(n, c, msg))
  {
    if msg.node.Some? {
      assert InPlace(c, Accepted(c, msg.node.value));
      CheckedInPlace(n, Accepted(c, msg.node.value), msg.node.value, msg.justify, msg.view, msg.sender);
    }
  }

  lemma PhasesInPlace(n: nat, c: Scene, msg: Message)
    ensures InPlace(c, PreCommitHandled(n, c, msg)) && InPlace(c, CommitHandled(n, c, msg))
  {
  }

  lemma DecideInPlace(n: nat, c: Scene, msg: Message)
    ensures InPlace(c, DecideHandled(n, c, msg))
  {
  }

  lemma VoteInPlace(n: nat, c: Scene, msg: Message)
    ensures InPlace(c, VoteHandled(n, c, msg))
  {
    if VoteWellFormed(n, c, msg) {
      var key := Key(msg.kind, msg.view, msg.node.value.hash);
      assert InPlace(c, Accepted(c, msg.node.value));
      CountedInPlace(n, Accepted(c, msg.node.value), key, msg.sig.value);
    }
  }

  lemma CountedInPlace(n: nat, c: Scene, key: Key, share: Share)
    ensures InPlace(c, VoteCounted(n, c, key, share))
  {
  }

  lemma HandledInPlace(n: nat, c: Scene, msg: Message)
    ensures InPlace(c, ReplicaHandled(n, c, msg))
  {
    PrepareInPlace(n, c, msg);
    PhasesInPlace(n, c, msg);
    DecideInPlace(n, c, msg);
  }

  lemma ProposedInPlace(n: nat, c: Scene, high: Option<QC>)
    ensures InPlace(c, Proposed(n, c, high))
  {
  }

  ghost predicate Ordered(future: map<int, seq<Message>>) {
    Filed(future) && Tidy(future)
  }

  lemma {:induction false} EntersInTime(n: nat, c: Scene, view: int, trail: seq<Action>, c': Scene)
    requires EntersBy(n, c, view, trail, c') && Ordered(c.s.future)
    ensures InTime(trail) && Ordered(c'.s.future) && c.s.view <= c'.s.view
    decreases |trail|, 0, 0
  {
    if view > c.s.view {
      var inner, mid := EnteredBetween(n, c, view, trail, c');
      ReplaysInTime(n, Entered(n, c, view), view, Batch(c.s, view), inner, mid);
      ProposedInPlace(n, mid, Latest(trail).high);
    }
  }

  lemma {:induction false} ReplaysInTime(n: nat, c: Scene, view: int, batch: seq<Message>, trail: seq<Action>, c': Scene)
    requires ReplaysBy(n, c, batch, trail, c') && Ordered(c.s.future) && c.s.view == view
    requires TidyBatch(batch) && forall i :: 0 <= i < |batch| ==> batch[i].view == view
    ensures InTime(trail) && Ordered(c'.s.future) && view <= c'.s.view
    ensures (forall i :: 0 <= i < |batch| ==> !IsDecide(batch[i])) ==> c'.s.view == view
    decreases |trail|, |batch|, 3
  {
    if batch != [] {
      var init, msg := batch[..|batch| - 1], batch[|batch| - 1];
      var first, mid, rest :| first + rest == trail && ReplaysBy(n, c, init, first, mid) && TakesBy(n, mid, msg, rest, c');
      ReplaysInTime(n, c, view, init, first, mid);
      TakesInTime(n, mid, msg, rest, c');
    }
  }

  lemma {:induction false} TakesInTime(n: nat, c: Scene, msg: Message, trail: seq<Action>, c': Scene)
    requires TakesBy(n, c, msg, trail, c') && Ordered(c.s.future) && (msg.isVote || Prompt(msg, c.s.view))
    ensures InTime(trail) && Ordered(c'.s.future) && c.s.view <= c'.s.view
    ensures !IsDecide(msg) ==> c'.s.view == c.s.view
    decreases |trail|, 0, 1
  {
    HandledInPlace(n, c, msg);
    VoteInPlace(n, c, msg);
    if !msg.isVote && Decides(n, c, msg) {
      EntersInTime(n, ReplicaHandled(n, c, msg), msg.view + 1, trail[1..], c');
      assert trail == [trail[0]] + trail[1..];
    }
  }

  /** A call that finds no PREPARE or COMMIT waiting behind a DECIDE handles all its messages in time. */
  lemma AnswersInTime(n: nat, c: Scene, call: Call, trail: seq<Action>, c': Scene)
    requires Answers(n, c, call, trail, c') && Ordered(c.s.future)
    ensures InTime(trail)
  {
    match call {
      case Deliver(msg) =>
        if 0 <= msg.sender < n && msg.kind != NewView && msg.view == c.s.view {
          TakesInTime(n, c, msg, trail, c');
        }
      case Timeout(view) => if view == c.s.view { EntersInTime(n, c, view + 1, trail, c'); }
      case Client(cmd) =>
    }
  }
}
