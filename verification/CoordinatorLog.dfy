/** What the coordinator's audit trail says about its state, over every sequence of commands with duplicates
    and rejected commands. */
module CoordinatorLog {
  import opened Coordinator

  // ---------- reading an experiment's events ----------

  function EventsOf(events: seq<Event>, experiment: int): seq<Event> {
    if events == [] then []
    else
      var init, e := events[..|events| - 1], events[|events| - 1];
      EventsOf(init, experiment) + if e.experiment == experiment then [e] else []
  }

  lemma EventsOfLonger(events: seq<Event>, e: Event, experiment: int)
    ensures EventsOf(events + [e], experiment) == EventsOf(events, experiment) + if e.experiment == experiment then [e] else []
  {
    assert (events + [e])[..|events|] == events;
  }

  /** What is known of an experiment; the worker matters only while it runs. */
  datatype Summary = Summary(status: Status, attempt: int, cancellationRequested: bool, worker: Option<string>)

  function SummaryOf(row: Experiment): Summary {
    Summary(row.status, row.attempt, row.cancellationRequested, if row.status == Running then row.worker else None)
  }

  function Told(s: Summary, e: Event): Summary {
    match e.kind
    case CreatedEvent => Summary(Pending, 0, false, None)
    case AssignedEvent => Summary(Running, e.attempt, false, e.worker)
    case CompletedEvent => Summary(Completed, s.attempt, false, None)
    case FailedEvent => Summary(Failed, s.attempt, false, None)
    case RequeuedEvent => Summary(Pending, s.attempt, false, None)
    case RecoveredEvent => Summary(Pending, s.attempt, s.cancellationRequested, None)
    case CancelRequestedEvent => s.(cancellationRequested := true)
    case CancelledEvent => Summary(Cancelled, s.attempt, true, None)
  }

  /** The state that the events alone tell. */
  function Folded(log: seq<Event>): Summary {
    if log == [] then Summary(Pending, 0, false, None) else Told(Folded(log[..|log| - 1]), log[|log| - 1])
  }

  function Assignments(log: seq<Event>): nat {
    if log == [] then 0 else Assignments(log[..|log| - 1]) + if log[|log| - 1].kind == AssignedEvent then 1 else 0
  }

  predicate IsFinal(e: Event) {
    e.kind == CompletedEvent || e.kind == FailedEvent || e.kind == CancelledEvent
  }

  /** The latest assignment is to this worker under this attempt, and nothing but a request to cancel came after it. */
  ghost predicate Holds(log: seq<Event>, worker: string, attempt: int) {
    exists i :: 0 <= i < |log| && HoldsSince(log, i, worker, attempt)
  }

  ghost predicate HoldsSince(log: seq<Event>, i: nat, worker: string, attempt: int)
    requires i < |log|
  {
    && log[i].kind == AssignedEvent && log[i].worker == Some(worker) && log[i].attempt == attempt
    && forall j :: i < j < |log| ==> log[j].kind == CancelRequestedEvent
  }

  /** The k-th assignment carries attempt number k, and a final event is the last one. */
  ghost predicate Numbered(log: seq<Event>) {
    forall i :: 0 <= i < |log| ==>
      && (log[i].kind == AssignedEvent ==> log[i].worker.Some? && log[i].attempt == Assignments(log[..i + 1]))
      && (IsFinal(log[i]) ==> i == |log| - 1)
  }

  predicate IsTerminal(status: Status) {
    status == Completed || status == Failed || status == Cancelled
  }

  // ---------- one experiment ----------

  ghost predicate LogOk(log: seq<Event>, row: Experiment) {
    && log != [] && Folded(log) == SummaryOf(row)
    && Numbered(log) && row.attempt == Assignments(log)
    && (IsTerminal(row.status) <==> IsFinal(log[|log| - 1]))
    && (row.status == Running ==> row.worker.Some? && Holds(log, row.worker.value, row.attempt))
    && (row.status != Running ==> log[|log| - 1].kind != AssignedEvent && log[|log| - 1].kind != CancelRequestedEvent)
  }

  lemma FoldedLonger(log: seq<Event>, e: Event)
    ensures Folded(log + [e]) == Told(Folded(log), e)
    ensures Assignments(log + [e]) == Assignments(log) + if e.kind == AssignedEvent then 1 else 0
  {
    assert (log + [e])[..|log|] == log;
  }

  lemma NumberedLonger(log: seq<Event>, e: Event)
    requires Numbered(log) && (log == [] || !IsFinal(log[|log| - 1]))
    requires e.kind == AssignedEvent ==> e.worker.Some? && e.attempt == Assignments(log) + 1
    ensures Numbered(log + [e])
  {
    FoldedLonger(log, e);
    var longer := log + [e];
    forall i | 0 <= i < |longer|
      ensures longer[i].kind == AssignedEvent ==> longer[i].worker.Some? && longer[i].attempt == Assignments(longer[..i + 1])
      ensures IsFinal(longer[i]) ==> i == |longer| - 1
    {
      if i < |log| {
        assert longer[..i + 1] == log[..i + 1];
      } else {
        assert longer[..i + 1] == longer;
      }
    }
  }

  lemma AssignmentHolds(log: seq<Event>, e: Event)
    requires e.kind == AssignedEvent && e.worker.Some?
    ensures Holds(log + [e], e.worker.value, e.attempt)
  {
    assert HoldsSince(log + [e], |log|, e.worker.value, e.attempt);
  }

  lemma RequestKeepsHold(log: seq<Event>, e: Event, worker: string, attempt: int)
    requires e.kind == CancelRequestedEvent && Holds(log, worker, attempt)
    ensures Holds(log + [e], worker, attempt)
  {
    var i :| 0 <= i < |log| && HoldsSince(log, i, worker, attempt);
    assert HoldsSince(log + [e], i, worker, attempt);
  }

  /** The event `e` tells how `row` became `next`. */
  ghost predicate Tells(row: Experiment, e: Event, next: Experiment) {
    && SummaryOf(next) == Told(SummaryOf(row), e)
    && next.attempt == (if e.kind == AssignedEvent then row.attempt + 1 else row.attempt)
    && (IsTerminal(next.status) <==> IsFinal(e))
    && (if e.kind == AssignedEvent then e.worker.Some? && e.attempt == next.attempt && next.worker == e.worker
        else if e.kind == CancelRequestedEvent then row.status == next.status == Running && next.worker == row.worker
        else next.status != Running)
  }

  lemma ChangeTells(row: Experiment, cmd: Command)
    requires RowChange(row, cmd).Some?
    ensures !IsTerminal(row.status)
    ensures var change := RowChange(row, cmd).value;
            if change.event.Some? then Tells(row, change.event.value, change.row) else change.row == row
  {
  }

  lemma TellingKeepsLog(log: seq<Event>, row: Experiment, e: Event, next: Experiment)
    requires LogOk(log, row) && !IsTerminal(row.status) && Tells(row, e, next)
    ensures LogOk(log + [e], next)
  {
    FoldedLonger(log, e);
    NumberedLonger(log, e);
    if e.kind == AssignedEvent {
      AssignmentHolds(log, e);
    } else if e.kind == CancelRequestedEvent {
      RequestKeepsHold(log, e, row.worker.value, row.attempt);
    }
  }

  /** An accepted command extends a correct log to a correct log. */
  lemma ChangeKeepsLog(log: seq<Event>, row: Experiment, cmd: Command)
    requires LogOk(log, row) && RowChange(row, cmd).Some?
    ensures var change := RowChange(row, cmd).value;
            if change.event.Some? then LogOk(log + [change.event.value], change.row) else change.row == row
  {
    ChangeTells(row, cmd);
    var change := RowChange(row, cmd).value;
    if change.event.Some? {
      TellingKeepsLog(log, row, change.event.value, change.row);
    }
  }

  lemma CreationStartsLog(db: Db, cmd: Command)
    requires cmd.Create? && ChangeOf(db, cmd).Some?
    ensures var change := ChangeOf(db, cmd).value; change.event.Some? && LogOk([change.event.value], change.row)
  {
    var e := ChangeOf(db, cmd).value.event.value;
    assert [e] == [] + [e];
    FoldedLonger([], e);
    NumberedLonger([], e);
  }

  // ---------- the whole database ----------

  /** The events of an experiment explain its row; there are none without a row. */
  ghost predicate LogMatches(db: Db, id: int) {
    if id in db.experiments then LogOk(EventsOf(db.events, id), db.experiments[id]) else EventsOf(db.events, id) == []
  }

  ghost predicate Inv(db: Db) {
    && (forall id :: LogMatches(db, id))
    && (forall c :: c in db.applied ==> db.applied[c].experiment in db.experiments)
    && DistinctIds(db.events)
  }

  ghost predicate DistinctIds(events: seq<Event>) {
    forall i, j :: 0 <= i < j < |events| ==> events[i].id != events[j].id
  }

  lemma IdsStayDistinct(events: seq<Event>, e: Event)
    requires DistinctIds(events) && !EventIdUsed(events, e.id)
    ensures DistinctIds(events + [e])
  {
    assert forall i :: 0 <= i < |events| ==> events[i] in events;
  }

  lemma EventFitsCommand(db: Db, cmd: Command)
    requires ChangeOf(db, cmd).Some? && ChangeOf(db, cmd).value.event.Some?
    ensures ChangeOf(db, cmd).value.event.value.experiment == cmd.experiment
  {
  }

  lemma ApplyKeeps(db: Db, cmd: Command)
    requires Inv(db)
    ensures Inv(Applied(db, cmd))
  {
    if TakesEffect(db, cmd) {
      forall id ensures LogMatches(Applied(db, cmd), id) {
        LogKept(db, cmd, id);
      }
      KeysKept(db, cmd);
    }
  }

  lemma KeysKept(db: Db, cmd: Command)
    requires TakesEffect(db, cmd) && DistinctIds(db.events)
    requires forall c :: c in db.applied ==> db.applied[c].experiment in db.experiments
    ensures var db' := Applied(db, cmd);
            DistinctIds(db'.events) && forall c :: c in db'.applied ==> db'.applied[c].experiment in db'.experiments
  {
    var change := ChangeOf(db, cmd).value;
    if change.event.Some? {
      IdsStayDistinct(db.events, change.event.value);
    }
  }

  /** The events of an experiment after a command took effect. */
  lemma EventsAfter(db: Db, cmd: Command, id: int)
    requires TakesEffect(db, cmd)
    ensures var event := ChangeOf(db, cmd).value.event;
            EventsOf(Applied(db, cmd).events, id) ==
            if event.Some? && id == cmd.experiment then EventsOf(db.events, id) + [event.value] else EventsOf(db.events, id)
  {
    var event := ChangeOf(db, cmd).value.event;
    if event.Some? {
      EventFitsCommand(db, cmd);
      EventsOfLonger(db.events, event.value, id);
    }
  }

  lemma LogKept(db: Db, cmd: Command, id: int)
    requires Inv(db) && TakesEffect(db, cmd)
    ensures LogMatches(Applied(db, cmd), id)
  {
    assert LogMatches(db, id);
    EventsAfter(db, cmd, id);
    if id == cmd.experiment {
      OwnLogKept(db, cmd);
    }
  }

  lemma OwnLogKept(db: Db, cmd: Command)
    requires Inv(db) && ChangeOf(db, cmd).Some?
    ensures var change := ChangeOf(db, cmd).value;
            var log := EventsOf(db.events, cmd.experiment);
            LogOk(if change.event.Some? then log + [change.event.value] else log, change.row)
  {
    assert LogMatches(db, cmd.experiment);
    var change := ChangeOf(db, cmd).value;
    if cmd.Create? {
      CreationStartsLog(db, cmd);
      assert [] + [change.event.value] == [change.event.value];
    } else {
      ChangeKeepsLog(EventsOf(db.events, cmd.experiment), db.experiments[cmd.experiment], cmd);
    }
  }

  lemma {:induction false} RunKeeps(cmds: seq<Command>)
    ensures Inv(AppliedAll(cmds))
  {
    if cmds != [] {
      RunKeeps(cmds[..|cmds| - 1]);
      ApplyKeeps(AppliedAll(cmds[..|cmds| - 1]), cmds[|cmds| - 1]);
    }
  }

  // ---------- results ----------

  /** Folding an experiment's events gives its status, attempt, cancellation request and, while it runs, worker. */
  lemma EventsTellState(cmds: seq<Command>, id: int)
    requires id in AppliedAll(cmds).experiments
    ensures Folded(EventsOf(AppliedAll(cmds).events, id)) == SummaryOf(AppliedAll(cmds).experiments[id])
  {
    RunKeeps(cmds);
    assert LogMatches(AppliedAll(cmds), id);
  }

  lemma AppliedOne(cmds: seq<Command>, i: nat)
    requires i < |cmds|
    ensures AppliedAll(cmds[..i + 1]) == Applied(AppliedAll(cmds[..i]), cmds[i])
  {
    assert cmds[..i + 1][..i] == cmds[..i];
  }

  lemma {:induction false} AppliedStays(cmds: seq<Command>, i: nat, j: nat, c: int)
    requires i <= j <= |cmds| && c in AppliedAll(cmds[..i]).applied
    ensures c in AppliedAll(cmds[..j]).applied && AppliedAll(cmds[..j]).applied[c] == AppliedAll(cmds[..i]).applied[c]
    decreases j - i
  {
    if i < j {
      AppliedStays(cmds, i, j - 1, c);
      AppliedOne(cmds, j - 1);
    }
  }

  /** A command ID takes effect at most once. */
  lemma OneEffectPerId(cmds: seq<Command>, i: nat, j: nat)
    requires i < j < |cmds|
    requires TakesEffect(AppliedAll(cmds[..i]), cmds[i]) && TakesEffect(AppliedAll(cmds[..j]), cmds[j])
    ensures cmds[i].commandId != cmds[j].commandId
  {
    AppliedOne(cmds, i);
    if cmds[i].commandId == cmds[j].commandId {
      AppliedStays(cmds, i + 1, j, cmds[i].commandId);
    }
  }

  /** A command delivered again is answered with the experiment's current row and changes nothing. */
  lemma RedeliveryAnswered(cmds: seq<Command>, i: nat)
    requires i < |cmds| && TakesEffect(AppliedAll(cmds[..i]), cmds[i])
    ensures var db := AppliedAll(cmds);
            && Applied(db, cmds[i]) == db && cmds[i].experiment in db.experiments
            && Answer(db, cmds[i]) == AlreadyApplied(db.experiments[cmds[i].experiment])
  {
    AppliedOne(cmds, i);
    AppliedStays(cmds, i + 1, |cmds|, cmds[i].commandId);
    assert cmds[..|cmds|] == cmds;
    RunKeeps(cmds);
  }

  /** The attempt counts the assignments; no two assignments share an attempt number, so neither do two workers. */
  lemma OneWorkerPerAttempt(cmds: seq<Command>, id: int, i: nat, j: nat)
    requires id in AppliedAll(cmds).experiments
    ensures var log := EventsOf(AppliedAll(cmds).events, id);
            && AppliedAll(cmds).experiments[id].attempt == Assignments(log)
            && (i < j < |log| && log[i].kind == log[j].kind == AssignedEvent ==> log[i].attempt < log[j].attempt)
  {
    RunKeeps(cmds);
    assert LogMatches(AppliedAll(cmds), id);
    var log := EventsOf(AppliedAll(cmds).events, id);
    if i < j < |log| && log[i].kind == log[j].kind == AssignedEvent {
      NumbersRise(log, i, j);
    }
  }

  lemma NumbersRise(log: seq<Event>, i: nat, j: nat)
    requires Numbered(log) && i < j < |log| && log[i].kind == log[j].kind == AssignedEvent
    ensures log[i].attempt < log[j].attempt
  {
    AssignmentsGrow(log, i + 1, j);
    assert log[..j + 1][..j] == log[..j];
  }

  lemma {:induction false} AssignmentsGrow(log: seq<Event>, i: nat, j: nat)
    requires i <= j <= |log|
    ensures Assignments(log[..i]) <= Assignments(log[..j])
    decreases j - i
  {
    if i < j {
      AssignmentsGrow(log, i, j - 1);
      assert log[..j][..j - 1] == log[..j - 1];
    }
  }

  lemma HoldTellsRunning(log: seq<Event>, row: Experiment, worker: string, attempt: int)
    requires LogOk(log, row) && Holds(log, worker, attempt)
    ensures RunsBy(row, Some(worker), attempt)
  {
    var i :| 0 <= i < |log| && HoldsSince(log, i, worker, attempt);
    FoldedAfterHold(log, i, |log|, worker, attempt);
    assert log[..|log|] == log;
  }

  lemma {:induction false} FoldedAfterHold(log: seq<Event>, i: nat, j: nat, worker: string, attempt: int)
    requires i < j <= |log| && HoldsSince(log, i, worker, attempt)
    ensures var s := Folded(log[..j]); s.status == Running && s.worker == Some(worker) && s.attempt == attempt
    decreases j - i
  {
    assert log[..j][..j - 1] == log[..j - 1];
    if i + 1 < j {
      FoldedAfterHold(log, i, j - 1, worker, attempt);
    }
  }

  /** Fencing: a completion takes effect exactly when its worker holds the latest assignment under its attempt
      number, the claim about cancellation is right, and both of its keys are new. */
  lemma CompletionIsFenced(cmds: seq<Command>, cmd: Command)
    requires cmd.Complete?
    ensures var db := AppliedAll(cmds);
            var log := EventsOf(db.events, cmd.experiment);
            TakesEffect(db, cmd) <==>
              && cmd.commandId !in db.applied && !EventIdUsed(db.events, cmd.eventId)
              && Holds(log, cmd.workerId, cmd.attempt) && Folded(log).cancellationRequested == cmd.wasCancelled
  {
    RunKeeps(cmds);
    var db := AppliedAll(cmds);
    var log := EventsOf(db.events, cmd.experiment);
    assert LogMatches(db, cmd.experiment);
    if cmd.experiment in db.experiments {
      if Holds(log, cmd.workerId, cmd.attempt) {
        HoldTellsRunning(log, db.experiments[cmd.experiment], cmd.workerId, cmd.attempt);
      }
    } else {
      assert log == [];
    }
  }

  lemma TerminalRowRefuses(db: Db, cmd: Command, id: int)
    requires id in db.experiments && IsTerminal(db.experiments[id].status)
    ensures var db' := Applied(db, cmd);
            id in db'.experiments && db'.experiments[id] == db.experiments[id] && EventsOf(db'.events, id) == EventsOf(db.events, id)
  {
    if TakesEffect(db, cmd) && ChangeOf(db, cmd).value.event.Some? {
      EventFitsCommand(db, cmd);
      EventsOfLonger(db.events, ChangeOf(db, cmd).value.event.value, id);
    }
  }

  /** Terminal states are absorbing: neither the row nor its events ever change again. */
  lemma {:induction false} TerminalIsAbsorbing(cmds: seq<Command>, i: nat, j: nat, id: int)
    requires i <= j <= |cmds| && id in AppliedAll(cmds[..i]).experiments && IsTerminal(AppliedAll(cmds[..i]).experiments[id].status)
    ensures var before, after := AppliedAll(cmds[..i]), AppliedAll(cmds[..j]);
            id in after.experiments && after.experiments[id] == before.experiments[id] && EventsOf(after.events, id) == EventsOf(before.events, id)
    decreases j - i
  {
    if i < j {
      TerminalIsAbsorbing(cmds, i, j - 1, id);
      AppliedOne(cmds, j - 1);
      TerminalRowRefuses(AppliedAll(cmds[..j - 1]), cmds[j - 1], id);
    }
  }

  // ---------- requests to cancel ----------

  /** The experiment's row after the first `i` commands. */
  function RowAt(cmds: seq<Command>, i: nat, id: int): Experiment
    requires i <= |cmds| && id in AppliedAll(cmds[..i]).experiments
  {
    AppliedAll(cmds[..i]).experiments[id]
  }

  predicate TakesEffectAt(cmds: seq<Command>, k: nat, id: int)
    requires k < |cmds|
  {
    cmds[k].experiment == id && TakesEffect(AppliedAll(cmds[..k]), cmds[k])
  }

  /** One command: the row stays, or the command took effect on it. */
  lemma RowMoves(cmds: seq<Command>, k: nat, id: int)
    requires k < |cmds| && id in AppliedAll(cmds[..k]).experiments
    ensures id in AppliedAll(cmds[..k + 1]).experiments
    ensures var row, row' := RowAt(cmds, k, id), RowAt(cmds, k + 1, id);
            if TakesEffectAt(cmds, k, id) then RowChange(row, cmds[k]).Some? && row' == RowChange(row, cmds[k]).value.row
            else row' == row
  {
    AppliedOne(cmds, k);
  }

  lemma {:induction false} ExperimentStays(cmds: seq<Command>, i: nat, j: nat, id: int)
    requires i <= j <= |cmds| && id in AppliedAll(cmds[..i]).experiments
    ensures id in AppliedAll(cmds[..j]).experiments
    decreases j - i
  {
    if i < j {
      ExperimentStays(cmds, i, j - 1, id);
      RowMoves(cmds, j - 1, id);
    }
  }

  /** Between `i` and `j` a recovery at startup took effect and, later, an assignment. */
  ghost predicate ReassignedAfterRestart(cmds: seq<Command>, i: nat, j: nat, id: int)
    requires j <= |cmds|
  {
    exists r, a :: i <= r < a < j && Recovered(cmds, r, id) && Reassigned(cmds, a, id)
  }

  ghost predicate Recovered(cmds: seq<Command>, k: nat, id: int)
    requires k < |cmds|
  {
    cmds[k].RecoverOnStartup? && TakesEffectAt(cmds, k, id)
  }

  ghost predicate Reassigned(cmds: seq<Command>, k: nat, id: int)
    requires k < |cmds|
  {
    cmds[k].Assign? && TakesEffectAt(cmds, k, id)
  }

  /** A row that was running with a request to cancel, as long as the request stands: it runs, or waits after a
      recovery, or is cancelled. */
  ghost predicate RequestStands(cmds: seq<Command>, i: nat, k: nat, id: int)
    requires i <= k <= |cmds| && id in AppliedAll(cmds[..k]).experiments
  {
    var row := RowAt(cmds, k, id);
    && row.cancellationRequested
    && (row.status == Running || row.status == Cancelled || (row.status == Pending && exists r :: i <= r < k && Recovered(cmds, r, id)))
  }

  lemma RequestStandsOrForgotten(cmds: seq<Command>, i: nat, k: nat, id: int)
    requires i <= k < |cmds| && id in AppliedAll(cmds[..k]).experiments && id in AppliedAll(cmds[..k + 1]).experiments
    requires RequestStands(cmds, i, k, id)
    ensures RequestStands(cmds, i, k + 1, id) || (Reassigned(cmds, k, id) && exists r :: i <= r < k && Recovered(cmds, r, id))
  {
    RowMoves(cmds, k, id);
    if cmds[k].RecoverOnStartup? && TakesEffectAt(cmds, k, id) {
      assert Recovered(cmds, k, id);
    } else if exists r :: i <= r < k && Recovered(cmds, r, id) {
      var r :| i <= r < k && Recovered(cmds, r, id);
    }
  }

  /** Without such a restart the request stands: the experiment can end in no way but cancelled. */
  lemma {:induction false} RequestSurvives(cmds: seq<Command>, i: nat, j: nat, id: int)
    requires i <= j <= |cmds| && id in AppliedAll(cmds[..i]).experiments
    requires RowAt(cmds, i, id).status == Running && RowAt(cmds, i, id).cancellationRequested
    requires !ReassignedAfterRestart(cmds, i, j, id)
    ensures id in AppliedAll(cmds[..j]).experiments && RequestStands(cmds, i, j, id)
    decreases j - i
  {
    if i < j {
      RequestSurvives(cmds, i, j - 1, id);
      ExperimentStays(cmds, j - 1, j, id);
      RequestStandsOrForgotten(cmds, i, j - 1, id);
    }
  }

  /** A request to cancel a running experiment is cleared exactly when a recovery at startup takes effect and,
      after it, an assignment. */
  lemma RequestForgottenExactly(cmds: seq<Command>, i: nat, j: nat, id: int)
    requires i <= j <= |cmds| && id in AppliedAll(cmds[..i]).experiments
    requires RowAt(cmds, i, id).status == Running && RowAt(cmds, i, id).cancellationRequested
    ensures (exists k :: i <= k <= j && id in AppliedAll(cmds[..k]).experiments && !RowAt(cmds, k, id).cancellationRequested)
       <==> ReassignedAfterRestart(cmds, i, j, id)
  {
    if ReassignedAfterRestart(cmds, i, j, id) {
      var r, a :| i <= r < a < j && Recovered(cmds, r, id) && Reassigned(cmds, a, id);
      ExperimentStays(cmds, i, a, id);
      RowMoves(cmds, a, id);
      assert !RowAt(cmds, a + 1, id).cancellationRequested;
    } else {
      forall k | i <= k <= j ensures id in AppliedAll(cmds[..k]).experiments && RowAt(cmds, k, id).cancellationRequested {
        assert !ReassignedAfterRestart(cmds, i, k, id);
        RequestSurvives(cmds, i, k, id);
      }
    }
  }

  /** No command ID or event ID above `k` was used. */
  ghost predicate UsedUpTo(db: Db, k: int) {
    (forall c :: c in db.applied ==> c <= k) && (forall e :: e in db.events ==> e.id <= k)
  }

  lemma NextTakesEffect(cmds: seq<Command>, k: nat)
    requires k < |cmds| && UsedUpTo(AppliedAll(cmds[..k]), k) && cmds[k].commandId == cmds[k].eventId == k + 1
    requires ChangeOf(AppliedAll(cmds[..k]), cmds[k]).Some?
    ensures var db, db' := AppliedAll(cmds[..k]), AppliedAll(cmds[..k + 1]);
            UsedUpTo(db', k + 1) && db'.experiments == db.experiments[cmds[k].experiment := ChangeOf(db, cmds[k]).value.row]
  {
    AppliedOne(cmds, k);
  }

  /** Five commands after which an experiment runs, although it was asked to be cancelled. */
  function RestartedCommands(id: int, first: string, second: string): seq<Command> {
    [Create(1, id, 1, ""), Assign(2, id, 2, first, 1), RequestCancellation(3, id, 3),
     RecoverOnStartup(4, id, 4, Some(first), 1), Assign(5, id, 5, second, 2)]
  }

  lemma RestartForgetsCancellation(id: int, first: string, second: string)
    ensures var cmds := RestartedCommands(id, first, second);
            && id in AppliedAll(cmds[..3]).experiments && id in AppliedAll(cmds[..5]).experiments
            && RunsBy(RowAt(cmds, 3, id), Some(first), 1) && RowAt(cmds, 3, id).cancellationRequested
            && RunsBy(RowAt(cmds, 5, id), Some(second), 2) && !RowAt(cmds, 5, id).cancellationRequested
  {
    var cmds := RestartedCommands(id, first, second);
    assert AppliedAll(cmds[..0]) == EMPTY;
    NextTakesEffect(cmds, 0);
    assert RowAt(cmds, 1, id) == Experiment("", Pending, None, 0, false);
    NextTakesEffect(cmds, 1);
    assert RowAt(cmds, 2, id) == Experiment("", Running, Some(first), 1, false);
    NextTakesEffect(cmds, 2);
    assert RowAt(cmds, 3, id) == Experiment("", Running, Some(first), 1, true);
    NextTakesEffect(cmds, 3);
    assert RowAt(cmds, 4, id) == Experiment("", Pending, None, 1, true);
    NextTakesEffect(cmds, 4);
  }
}
