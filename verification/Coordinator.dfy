/** The coordinator's replicated command processor: experiment rows, the audit trail of events and the set of
    applied commands, changed together in one transaction per command or not at all. */
module Coordinator {

  datatype Option<T> = None | Some(value: T)

  datatype Status = Pending | Running | Completed | Failed | Cancelled

  datatype Experiment = Experiment(spec: string, status: Status, worker: Option<string>, attempt: int, cancellationRequested: bool)

  datatype EventType = CreatedEvent | AssignedEvent | CompletedEvent | FailedEvent | RequeuedEvent | RecoveredEvent
                     | CancelRequestedEvent | CancelledEvent

  datatype Event = Event(id: int, experiment: int, kind: EventType, worker: Option<string>, attempt: int)

  datatype CommandType = CreateType | AssignType | CompleteType | CancelType | RequeueType | RecoverType

  datatype Command =
    | Create(commandId: int, experiment: int, eventId: int, spec: string)
    | Assign(commandId: int, experiment: int, eventId: int, workerId: string, attempt: int)
    | Complete(commandId: int, experiment: int, eventId: int, workerId: string, attempt: int, succeeded: bool, wasCancelled: bool)
    | RequestCancellation(commandId: int, experiment: int, eventId: int)
    | Requeue(commandId: int, experiment: int, eventId: int, workerId: string, attempt: int, cancelInsteadOfRequeue: bool)
    | RecoverOnStartup(commandId: int, experiment: int, eventId: int, previousWorkerId: Option<string>, attempt: int)
  {
    function Type(): CommandType {
      match this
      case Create(_, _, _, _) => CreateType
      case Assign(_, _, _, _, _) => AssignType
      case Complete(_, _, _, _, _, _, _) => CompleteType
      case RequestCancellation(_, _, _) => CancelType
      case Requeue(_, _, _, _, _, _) => RequeueType
      case RecoverOnStartup(_, _, _, _, _) => RecoverType
    }
  }

  datatype AppliedCommand = AppliedCommand(kind: CommandType, experiment: int)

  datatype Db = Db(experiments: map<int, Experiment>, events: seq<Event>, applied: map<int, AppliedCommand>)

  /** The row after the command, or the fact that the command had been applied before, or a rolled back error. */
  datatype Outcome = Done(row: Experiment) | AlreadyApplied(row: Experiment) | Rejected

  const EMPTY: Db := Db(map[], [], map[])

  // ---------- what a command does to its experiment ----------

  /** The new row and the event to record, if any. */
  datatype Change = Change(row: Experiment, event: Option<Event>)

  function Note(cmd: Command, kind: EventType, worker: Option<string>, attempt: int): Option<Event> {
    Some(Event(cmd.eventId, cmd.experiment, kind, worker, attempt))
  }

  function FinalStatus(cmd: Command): Status
    requires cmd.Complete?
  {
    if cmd.wasCancelled then Cancelled else if cmd.succeeded then Completed else Failed
  }

  function FinalEvent(cmd: Command): EventType
    requires cmd.Complete?
  {
    if cmd.wasCancelled then CancelledEvent else if cmd.succeeded then CompletedEvent else FailedEvent
  }

  /** The row is running in the hands of this worker under this attempt. */
  predicate RunsBy(row: Experiment, worker: Option<string>, attempt: int) {
    row.status == Running && row.worker == worker && row.attempt == attempt
  }

  function CancellationChange(row: Experiment, cmd: Command): Option<Change> {
    if row.status == Pending then
      Some(Change(row.(status := Cancelled, cancellationRequested := true), Note(cmd, CancelledEvent, None, row.attempt)))
    else if row.status == Running then
      if row.cancellationRequested then Some(Change(row, None))
      else Some(Change(row.(cancellationRequested := true), Note(cmd, CancelRequestedEvent, row.worker, row.attempt)))
    else None
  }

  function RequeueChange(row: Experiment, cmd: Command): Option<Change>
    requires cmd.Requeue?
  {
    if !RunsBy(row, Some(cmd.workerId), cmd.attempt) || row.cancellationRequested != cmd.cancelInsteadOfRequeue then None
    else if cmd.cancelInsteadOfRequeue then
      Some(Change(row.(status := Cancelled, worker := None), Note(cmd, CancelledEvent, Some(cmd.workerId), cmd.attempt)))
    else
      Some(Change(row.(status := Pending, worker := None), Note(cmd, RequeuedEvent, Some(cmd.workerId), cmd.attempt)))
  }

  /** The change that the command makes to an existing row; none if its guard fails. */
  function RowChange(row: Experiment, cmd: Command): Option<Change> {
    match cmd
    case Create(_, _, _, _) => None
    case Assign(_, _, _, workerId, attempt) =>
      if row.status == Pending && row.attempt == attempt - 1 then
        Some(Change(row.(status := Running, worker := Some(workerId), attempt := attempt, cancellationRequested := false),
                    Note(cmd, AssignedEvent, Some(workerId), attempt)))
      else None
    case Complete(_, _, _, workerId, attempt, _, wasCancelled) =>
      if RunsBy(row, Some(workerId), attempt) && row.cancellationRequested == wasCancelled then
        Some(Change(row.(status := FinalStatus(cmd), cancellationRequested := wasCancelled),
                    Note(cmd, FinalEvent(cmd), Some(workerId), attempt)))
      else None
    case RequestCancellation(_, _, _) => CancellationChange(row, cmd)
    case Requeue(_, _, _, _, _, _) => RequeueChange(row, cmd)
    case RecoverOnStartup(_, _, _, previousWorkerId, attempt) =>
      if RunsBy(row, previousWorkerId, attempt) then
        Some(Change(row.(status := Pending, worker := None), Note(cmd, RecoveredEvent, previousWorkerId, attempt)))
      else None
  }

  function ChangeOf(db: Db, cmd: Command): Option<Change> {
    if cmd.Create? then
      if cmd.experiment in db.experiments then None
      else Some(Change(Experiment(cmd.spec, Pending, None, 0, false), Note(cmd, CreatedEvent, None, 0)))
    else if cmd.experiment in db.experiments then RowChange(db.experiments[cmd.experiment], cmd)
    else None
  }

  // ---------- the transaction ----------

  predicate EventIdUsed(events: seq<Event>, id: int) {
    exists e :: e in events && e.id == id
  }

  /** Saving fails when the event's primary key is taken. */
  predicate Saves(db: Db, change: Change) {
    change.event.Some? ==> !EventIdUsed(db.events, change.event.value.id)
  }

  function Saved(db: Db, cmd: Command, change: Change): Db {
    Db(db.experiments[cmd.experiment := change.row],
       if change.event.Some? then db.events + [change.event.value] else db.events,
       db.applied[cmd.commandId := AppliedCommand(cmd.Type(), cmd.experiment)])
  }

  /** The answer to a command whose ID was used: the experiment that the first use touched, except that all
      but CREATE insist on the same type and experiment. */
  function Repeated(db: Db, cmd: Command): Outcome
    requires cmd.commandId in db.applied
  {
    var before := db.applied[cmd.commandId];
    if !cmd.Create? && (before.kind != cmd.Type() || before.experiment != cmd.experiment) then Rejected
    else if before.experiment in db.experiments then AlreadyApplied(db.experiments[before.experiment])
    else Rejected
  }

  predicate TakesEffect(db: Db, cmd: Command) {
    && cmd.commandId !in db.applied
    && ChangeOf(db, cmd).Some? && Saves(db, ChangeOf(db, cmd).value)
  }

  function Applied(db: Db, cmd: Command): Db {
    if TakesEffect(db, cmd) then Saved(db, cmd, ChangeOf(db, cmd).value) else db
  }

  function Answer(db: Db, cmd: Command): Outcome {
    if cmd.commandId in db.applied then Repeated(db, cmd)
    else if TakesEffect(db, cmd) then Done(ChangeOf(db, cmd).value.row)
    else Rejected
  }

  function AppliedAll(cmds: seq<Command>): Db {
    if cmds == [] then EMPTY else Applied(AppliedAll(cmds[..|cmds| - 1]), cmds[|cmds| - 1])
  }

  class CoordinatorCommandProcessor {
    var experiments: map<int, Experiment>
    var events: seq<Event>
    var appliedCommands: map<int, AppliedCommand>

    function View(): Db
      reads this
    {
      Db(experiments, events, appliedCommands)
    }

    constructor ()
      ensures View() == EMPTY
    {
      experiments, events, appliedCommands := map[], [], map[];
    }

    /** Adds the event and the applied command, and commits; a taken event key rolls everything back. */
    method SaveChanges(cmd: Command, row: Experiment, event: Option<Event>) returns (outcome: Outcome)
      modifies this
      ensures outcome == if Saves(old(View()), Change(row, event)) then Done(row) else Rejected
      ensures View() == if outcome.Done? then Saved(old(View()), cmd, Change(row, event)) else old(View())
    {
      if event.Some? {
        if exists e :: e in events && e.id == event.value.id {
          return Rejected;
        }
        events := events + [event.value];
      }
      experiments := experiments[cmd.experiment := row];
      appliedCommands := appliedCommands[cmd.commandId := AppliedCommand(cmd.Type(), cmd.experiment)];
      return Done(row);
    }

    method GetPreviouslyAppliedResult(cmd: Command) returns (previous: Option<Outcome>)
      requires !cmd.Create?
      ensures previous == if cmd.commandId in appliedCommands then Some(Repeated(View(), cmd)) else None
    {
      if cmd.commandId !in appliedCommands {
        return None;
      }
      var before := appliedCommands[cmd.commandId];
      if before.kind != cmd.Type() || before.experiment != cmd.experiment {
        return Some(Rejected);
      }
      if before.experiment !in experiments {
        return Some(Rejected);
      }
      return Some(AlreadyApplied(experiments[before.experiment]));
    }

    method ApplyCreate(cmd: Command) returns (outcome: Outcome)
      requires cmd.Create?
      modifies this
      ensures View() == Applied(old(View()), cmd) && outcome == Answer(old(View()), cmd)
    {
      if cmd.commandId in appliedCommands {
        var before := appliedCommands[cmd.commandId];
        if before.experiment in experiments {
          return AlreadyApplied(experiments[before.experiment]);
        }
        return Rejected;
      }
      if cmd.experiment in experiments {
        return Rejected;
      }
      var row := Experiment(cmd.spec, Pending, None, 0, false);
      outcome := SaveChanges(cmd, row, Some(Event(cmd.eventId, cmd.experiment, CreatedEvent, None, 0)));
    }

    method ApplyAssign(cmd: Command) returns (outcome: Outcome)
      requires cmd.Assign?
      modifies this
      ensures View() == Applied(old(View()), cmd) && outcome == Answer(old(View()), cmd)
    {
      var previous := GetPreviouslyAppliedResult(cmd);
      if previous.Some? {
        return previous.value;
      }
      if cmd.experiment !in experiments {
        return Rejected;
      }
      var row := experiments[cmd.experiment];
      if row.status != Pending || row.attempt != cmd.attempt - 1 {
        return Rejected;
      }
      row := row.(status := Running, worker := Some(cmd.workerId), attempt := cmd.attempt, cancellationRequested := false);
      outcome := SaveChanges(cmd, row, Some(Event(cmd.eventId, cmd.experiment, AssignedEvent, Some(cmd.workerId), cmd.attempt)));
    }

    method ApplyComplete(cmd: Command) returns (outcome: Outcome)
      requires cmd.Complete?
      modifies this
      ensures View() == Applied(old(View()), cmd) && outcome == Answer(old(View()), cmd)
    {
      var previous := GetPreviouslyAppliedResult(cmd);
      if previous.Some? {
        return previous.value;
      }
      if cmd.experiment !in experiments {
        return Rejected;
      }
      var row := experiments[cmd.experiment];
      if !RunsBy(row, Some(cmd.workerId), cmd.attempt) || row.cancellationRequested != cmd.wasCancelled {
        return Rejected;
      }
      row := row.(status := FinalStatus(cmd), cancellationRequested := cmd.wasCancelled);
      outcome := SaveChanges(cmd, row, Some(Event(cmd.eventId, cmd.experiment, FinalEvent(cmd), Some(cmd.workerId), cmd.attempt)));
    }

    method ApplyCancellation(cmd: Command) returns (outcome: Outcome)
      requires cmd.RequestCancellation?
      modifies this
      ensures View() == Applied(old(View()), cmd) && outcome == Answer(old(View()), cmd)
    {
      var previous := GetPreviouslyAppliedResult(cmd);
      if previous.Some? {
        return previous.value;
      }
      if cmd.experiment !in experiments {
        return Rejected;
      }
      var row := experiments[cmd.experiment];
      var event := None;
      if row.status == Pending {
        event := Some(Event(cmd.eventId, cmd.experiment, CancelledEvent, None, row.attempt));
        row := row.(status := Cancelled, cancellationRequested := true);
      } else if row.status == Running {
        if !row.cancellationRequested {
          event := Some(Event(cmd.eventId, cmd.experiment, CancelRequestedEvent, row.worker, row.attempt));
          row := row.(cancellationRequested := true);
        }
      } else {
        return Rejected;
      }
      outcome := SaveChanges(cmd, row, event);
    }

    method ApplyRequeue(cmd: Command) returns (outcome: Outcome)
      requires cmd.Requeue?
      modifies this
      ensures View() == Applied(old(View()), cmd) && outcome == Answer(old(View()), cmd)
    {
      var previous := GetPreviouslyAppliedResult(cmd);
      if previous.Some? {
        return previous.value;
      }
      if cmd.experiment !in experiments {
        return Rejected;
      }
      var row := experiments[cmd.experiment];
      if !RunsBy(row, Some(cmd.workerId), cmd.attempt) || row.cancellationRequested != cmd.cancelInsteadOfRequeue {
        return Rejected;
      }
      if cmd.cancelInsteadOfRequeue {
        row := row.(status := Cancelled, worker := None, cancellationRequested := true);
        outcome := SaveChanges(cmd, row, Some(Event(cmd.eventId, cmd.experiment, CancelledEvent, Some(cmd.workerId), cmd.attempt)));
      } else {
        row := row.(status := Pending, worker := None, cancellationRequested := false);
        outcome := SaveChanges(cmd, row, Some(Event(cmd.eventId, cmd.experiment, RequeuedEvent, Some(cmd.workerId), cmd.attempt)));
      }
    }

    method ApplyRecover(cmd: Command) returns (outcome: Outcome)
      requires cmd.RecoverOnStartup?
      modifies this
      ensures View() == Applied(old(View()), cmd) && outcome == Answer(old(View()), cmd)
    {
      var previous := GetPreviouslyAppliedResult(cmd);
      if previous.Some? {
        return previous.value;
      }
      if cmd.experiment !in experiments {
        return Rejected;
      }
      var row := experiments[cmd.experiment];
      if !RunsBy(row, cmd.previousWorkerId, cmd.attempt) {
        return Rejected;
      }
      row := row.(status := Pending, worker := None);
      outcome := SaveChanges(cmd, row, Some(Event(cmd.eventId, cmd.experiment, RecoveredEvent, cmd.previousWorkerId, cmd.attempt)));
    }

    method Apply(cmd: Command) returns (outcome: Outcome)
      modifies this
      ensures View() == Applied(old(View()), cmd) && outcome == Answer(old(View()), cmd)
    {
      match cmd {
        case Create(_, _, _, _) => outcome := ApplyCreate(cmd);
        case Assign(_, _, _, _, _) => outcome := ApplyAssign(cmd);
        case Complete(_, _, _, _, _, _, _) => outcome := ApplyComplete(cmd);
        case RequestCancellation(_, _, _) => outcome := ApplyCancellation(cmd);
        case Requeue(_, _, _, _, _, _) => outcome := ApplyRequeue(cmd);
        case RecoverOnStartup(_, _, _, _, _) => outcome := ApplyRecover(cmd);
      }
    }
  }
}
