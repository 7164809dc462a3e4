/** Runs of a HotStuff cluster in which correct replicas act only through calls of their handlers. Such a run
    is one of single actions. If no call of a handler finds a PREPARE or COMMIT buffered behind a DECIDE of its
    view, commits never conflict. */
module HotStuffCallRuns {
  import opened HotStuffTree
  import opened HotStuffVotes
  import opened HotStuffCrypto
  import opened HotStuffNode
  import opened HotStuffCalls
  import opened HotStuffRuns
  import opened HotStuffSafety

  /** A handler of replica `p` is called and performs `trail`, or the environment moves. */
  datatype Move = Calls(p: int, call: Call, trail: seq<Action>) | Outside(e: Event)

  /** Replica `p` performs the actions one after another. */
  ghost predicate Carries(k: Cluster, g: Global, p: int, trail: seq<Action>, g': Global)
    decreases |trail|
  {
    if trail == [] then g == g'
    else exists mid, after :: Carries(k, g, p, Earlier(trail), mid) && Step(k, mid, Act(p, Latest(trail), after), g')
  }

  ghost predicate Moved(k: Cluster, g: Global, m: Move, g': Global) {
    match m
    case Calls(p, call, trail) =>
      && p in g.nodes && p in g'.nodes && Carries(k, g, p, trail, g')
      && Answers(k.n, SceneOf(g, p), call, trail, SceneOf(g', p))
    case Outside(e) => !e.Act? && Step(k, g, e, g')
  }

  ghost predicate CallRun(k: Cluster, moves: seq<Move>, states: seq<Global>) {
    && |states| == |moves| + 1 && Init(k, states[0])
    && forall i :: 0 <= i < |moves| ==> Moved(k, states[i], moves[i], states[i + 1])
  }

  /** The called replica has no PREPARE or COMMIT waiting behind a DECIDE. */
  ghost predicate TidyMove(g: Global, m: Move) {
    m.Calls? && m.p in g.nodes ==> Tidy(g.nodes[m.p].future)
  }

  ghost predicate TidyRun(k: Cluster, moves: seq<Move>, states: seq<Global>) {
    CallRun(k, moves, states) && forall i :: 0 <= i < |moves| ==> TidyMove(states[i], moves[i])
  }

  // ---------- what the transport lets through ----------

  /** The transport stamps the sender: what arrives from a correct replica was sent by it, to all or to `p`. */
  ghost predicate Arrives(k: Cluster, g: Global, p: int, msg: Message) {
    k.Correct(msg.sender) ==>
      msg.sender in g.nodes && (ToAll(msg) in g.nodes[msg.sender].outbox || To(p, msg) in g.nodes[msg.sender].outbox)
  }

  /** The shares of correct replicas were sent to a faulty one. */
  ghost predicate HandedOver(k: Cluster, g: Global, record: Record) {
    forall id :: id in record.shares && k.Correct(id) ==>
      id in g.nodes && exists r, m :: !k.Correct(r) && To(r, m) in g.nodes[id].outbox && m.sig == Some(record.shares[id])
  }

  ghost predicate AuthenticMove(k: Cluster, g: Global, m: Move) {
    match m
    case Calls(p, call, _) => call.Deliver? ==> Arrives(k, g, p, call.msg)
    case Outside(e) => e.Combine? ==> HandedOver(k, g, e.record)
  }

  /** A run of calls in which faulty replicas send only under their own names and combine only what they hold. */
  ghost predicate AuthenticRun(k: Cluster, moves: seq<Move>, states: seq<Global>) {
    CallRun(k, moves, states) && forall i :: 0 <= i < |moves| ==> AuthenticMove(k, states[i], moves[i])
  }

  // ---------- every answer of a handler can be carried out ----------

  lemma CarriesOne(k: Cluster, g: Global, p: int, trail: seq<Action>, mid: Global, a: Action, after: Scene, g': Global)
    requires Carries(k, g, p, trail, mid) && Step(k, mid, Act(p, a, after), g')
    ensures Carries(k, g, p, trail + [a], g')
  {
    assert Earlier(trail + [a]) == trail && Latest(trail + [a]) == a;
  }

  ghost predicate CountsGenuine(signed: set<Vote>, trail: seq<Action>) {
    forall a :: a in trail && a.Count? ==> MessageGenuine(signed, a.msg)
  }

  /** Only replica `p` and what is shared change. */
  ghost predicate OnlyActs(g: Global, p: int, g': Global) {
    p in g.nodes && p in g'.nodes && g'.nodes == g.nodes[p := g'.nodes[p]] && g.signed <= g'.signed
  }

  lemma PerformedOnly(k: Cluster, g: Global, p: int, a: Action, c': Scene)
    requires p in g.nodes && Acts(k.n, SceneOf(g, p), a, c') && (a.Count? ==> MessageGenuine(g.signed, a.msg))
    ensures var g' := Performed(g, p, a, c'); Step(k, g, Act(p, a, c'), g') && OnlyActs(g, p, g') && SceneOf(g', p) == c'
  {
  }

  lemma OnlyActsOn(g: Global, p: int, mid: Global, g': Global)
    requires OnlyActs(g, p, mid) && OnlyActs(mid, p, g')
    ensures OnlyActs(g, p, g')
  {
  }

  lemma {:induction false} CarriedOut(k: Cluster, g: Global, p: int, trail: seq<Action>, c': Scene) returns (g': Global)
    requires p in g.nodes && Leads(k.n, SceneOf(g, p), trail, c') && CountsGenuine(g.signed, trail)
    ensures Carries(k, g, p, trail, g') && OnlyActs(g, p, g') && SceneOf(g', p) == c'
    decreases |trail|
  {
    g' := g;
    if trail != [] {
      var init, a := Earlier(trail), Latest(trail);
      assert trail == init + [a];
      var mid :| Leads(k.n, SceneOf(g, p), init, mid) && Acts(k.n, mid, a, c');
      var g1 := CarriedOut(k, g, p, init, mid);
      g' := Performed(g1, p, a, c');
      PerformedOnly(k, g1, p, a, c');
      CarriesOne(k, g, p, init, g1, a, c', g');
      OnlyActsOn(g, p, g1, g');
    }
  }

  // ---------- a run of calls is a run of actions ----------

  lemma RunOn(k: Cluster, events: seq<Event>, states: seq<Global>, e: Event, g': Global)
    requires Run(k, events, states) && Step(k, states[|events|], e, g')
    ensures Run(k, events + [e], states + [g'])
    ensures Timely(events) && TimelyEvent(e) ==> Timely(events + [e])
  {
    var events', states' := events + [e], states + [g'];
    forall i | 0 <= i < |events'| ensures Step(k, states'[i], events'[i], states'[i + 1]) {
      if i < |events| {
        assert Step(k, states[i], events[i], states[i + 1]);
      }
    }
  }

  /** `longer` continues the run and ends in `g'`. */
  ghost predicate Continues(k: Cluster, states: seq<Global>, events': seq<Event>, states': seq<Global>, g': Global) {
    Run(k, events', states') && states <= states' && states'[|events'|] == g'
  }

  lemma {:induction false} CarriedRun(k: Cluster, events: seq<Event>, states: seq<Global>, p: int, trail: seq<Action>, g': Global)
    returns (events': seq<Event>, states': seq<Global>)
    requires Run(k, events, states) && Carries(k, states[|events|], p, trail, g')
    ensures Continues(k, states, events', states', g')
    ensures Timely(events) && InTime(trail) ==> Timely(events')
    decreases |trail|
  {
    events', states' := events, states;
    if trail != [] {
      var g, a := states[|events|], Latest(trail);
      var mid, after :| Carries(k, g, p, Earlier(trail), mid) && Step(k, mid, Act(p, a, after), g');
      events', states' := CarriedRun(k, events, states, p, Earlier(trail), mid);
      assert a in trail;
      RunOn(k, events', states', Act(p, a, after), g');
      events', states' := events' + [Act(p, a, after)], states' + [g'];
    }
  }

  lemma {:induction false} FiledAlways(k: Cluster, events: seq<Event>, states: seq<Global>, i: nat)
    requires Run(k, events, states) && i <= |events|
    ensures forall p :: p in states[i].nodes ==> Filed(states[i].nodes[p].future)
  {
    if i > 0 {
      FiledAlways(k, events, states, i - 1);
      var g, e := states[i - 1], events[i - 1];
      assert Step(k, g, e, states[i]);
      if e.Act? {
        ActionFiles(k.n, SceneOf(g, e.p), e.a, e.after);
      }
    }
  }

  lemma ActionFiles(n: nat, c: Scene, a: Action, c': Scene)
    requires Acts(n, c, a, c') && Filed(c.s.future)
    ensures Filed(c'.s.future)
  {
    match a {
      case Handle(msg, at) => HandledInPlace(n, c, msg);
      case Count(msg) => VoteInPlace(n, c, msg);
      case Propose(high) => ProposedInPlace(n, c, high);
      case _ =>
    }
  }

  /** The run of actions behind the first `i` calls; `marks` says where each of them begins. */
  ghost predicate Unfolds(k: Cluster, states: seq<Global>, i: nat, events: seq<Event>, micro: seq<Global>, marks: seq<nat>) {
    && i < |states| && Run(k, events, micro) && |marks| == i + 1 && marks[i] == |events|
    && forall j :: 0 <= j <= i ==> marks[j] <= |events| && micro[marks[j]] == states[j]
  }

  lemma UnfoldsOn(k: Cluster, states: seq<Global>, i: nat, events: seq<Event>, micro: seq<Global>, marks: seq<nat>, m: Move)
    returns (events': seq<Event>, micro': seq<Global>, marks': seq<nat>)
    requires Unfolds(k, states, i, events, micro, marks) && i + 1 < |states| && Moved(k, states[i], m, states[i + 1])
    ensures Unfolds(k, states, i + 1, events', micro', marks')
    ensures Timely(events) && TidyMove(states[i], m) ==> Timely(events')
  {
    assert micro[|events|] == states[i];
    events', micro' := MovedRun(k, events, micro, m, states[i + 1]);
    marks' := marks + [|events'|];
    forall j | 0 <= j <= i ensures marks[j] <= |events'| && micro'[marks[j]] == states[j] {
      assert micro'[marks[j]] == micro[marks[j]];
    }
  }

  lemma {:induction false} CallRunIsRun(k: Cluster, moves: seq<Move>, states: seq<Global>, i: nat)
    returns (events: seq<Event>, micro: seq<Global>, marks: seq<nat>)
    requires CallRun(k, moves, states) && i <= |moves|
    ensures Unfolds(k, states, i, events, micro, marks)
    ensures TidyRun(k, moves, states) ==> Timely(events)
  {
    if i == 0 {
      events, micro, marks := [], [states[0]], [0];
    } else {
      events, micro, marks := CallRunIsRun(k, moves, states, i - 1);
      events, micro, marks := UnfoldsOn(k, states, i - 1, events, micro, marks, moves[i - 1]);
    }
  }

  lemma MovedRun(k: Cluster, events: seq<Event>, micro: seq<Global>, m: Move, g': Global)
    returns (events': seq<Event>, micro': seq<Global>)
    requires Run(k, events, micro) && Moved(k, micro[|events|], m, g')
    ensures Continues(k, micro, events', micro', g')
    ensures Timely(events) && TidyMove(micro[|events|], m) ==> Timely(events')
  {
    var g := micro[|events|];
    match m {
      case Calls(p, call, trail) =>
        FiledAlways(k, events, micro, |events|);
        if TidyMove(g, m) {
          AnswersInTime(k.n, SceneOf(g, p), call, trail, SceneOf(g', p));
        }
        events', micro' := CarriedRun(k, events, micro, p, trail, g');
      case Outside(e) =>
        RunOn(k, events, micro, e, g');
        events', micro' := events + [e], micro + [g'];
    }
  }

  // ---------- safety of tidy runs ----------

  /** If no call finds a PREPARE or COMMIT buffered behind a DECIDE of its view, two commit certificates never
      certify conflicting nodes. */
  lemma TidyCommitsAgree(k: Cluster, moves: seq<Move>, states: seq<Global>, i: nat, qc1: QC, qc2: QC)
    requires k.Tolerable() && TidyRun(k, moves, states) && i <= |moves|
    requires qc1.kind == qc2.kind == Commit && Verifies(k.n, states[i].certs, qc1) && Verifies(k.n, states[i].certs, qc2)
    ensures Extends(qc1.hash, qc2.hash) || Extends(qc2.hash, qc1.hash)
  {
    var events, micro, marks := CallRunIsRun(k, moves, states, |moves|);
    TimelyIsForward(k, events, micro);
    assert micro[marks[i]] == states[i];
    NoConflictingCommits(k, events, micro, marks[i], qc1, qc2);
  }

  /** Under the same condition, executed command sequences are prefixes of one another. */
  lemma TidyExecutionsComparable(k: Cluster, moves: seq<Move>, states: seq<Global>, i: nat, p: int, j: nat, q: int)
    requires k.Tolerable() && TidyRun(k, moves, states) && i <= |moves| && j <= |moves|
    requires p in states[i].nodes && q in states[j].nodes
    ensures PrefixComparable(Path(states[i].nodes[p].lastExecuted), Path(states[j].nodes[q].lastExecuted))
  {
    var events, micro, marks := CallRunIsRun(k, moves, states, |moves|);
    TimelyIsForward(k, events, micro);
    assert micro[marks[i]] == states[i] && micro[marks[j]] == states[j];
    ExecutedChainsComparable(k, events, micro, marks[i], p, marks[j], q);
  }
}
