/**
 * The managed-execution action of the remote-execution proxy
 * (lib/smart_proxy_remote_execution_ssh/command_action.rb).
 *
 * The orchestration engine resumes the action with exactly one event at a
 * time. The action records what it learns in its output hash and talks to the
 * dispatcher actor only through messages, modelled here as an outbox.
 * Suspension is the value `Suspended` of the run state; the engine's
 * persistence and scheduling are not modelled.
 */
module CommandAction {
  import opened Wrappers

  /** The stream an output entry came from. */
  datatype OutputType = Stdout | Stderr

  /** One entry of a command update, as the dispatcher formats it. */
  datatype Entry = Entry(outputType: OutputType, output: string, timestamp: int)

  /** The callback hash a caller may pass in the plan input. */
  datatype Callback = Callback(taskId: Option<string>)

  /** The action's input hash; `None` stands for a missing or nil value. */
  datatype Input = Input(
    callback: Option<Callback>,
    taskId: Option<string>,
    hostname: Option<string>,
    effectiveUser: Option<string>,
    script: Option<string>,
    hostPublicKey: Option<string>,
    verifyHost: Option<bool>)

  /** The command description handed to the dispatcher. The suspended-action handle is not modelled. */
  datatype Command = Command(
    id: Option<string>,
    host: Option<string>,
    sshUser: string,
    effectiveUser: Option<string>,
    script: Option<string>,
    hostPublicKey: Option<string>,
    verifyHost: Option<bool>)

  /** Messages told to the dispatcher actor. */
  datatype Message = InitializeCommand(command: Command) | Kill(command: Command)

  /** `output[:result]`: unset, a list of entries, or the string 'initialization_error'. */
  datatype ResultValue = Unset | Entries(entries: seq<Entry>) | InitializationErrorMarker

  /** The action's output hash: result, exit status and metadata (each may be absent). */
  datatype Output = Output(result: ResultValue, exitStatus: Option<int>, metadata: Option<map<string, string>>)

  /** The event the engine resumes the action with; `Start` is the first run, with no event. */
  datatype Event =
    | Start
    | CommandUpdate(entries: seq<Entry>, exitStatus: Option<int>)
    | InitializationError(exceptionClass: string, exceptionMessage: string)
    | Cancel
    | Skip
    | ConnectionTimeout(retryNumber: int, cause: string)
    | Unexpected(description: string)

  /** Why a run or a finalize ended in error. */
  datatype Failure =
    | UnexpectedEvent          // the `raise` for an event of no known kind
    | ResultNotAList           // `concat` on a result that is nil or the marker string
    | ScriptExecutionFailed    // `error!` raised by finalize

  /** The engine-visible state of the action. */
  datatype RunState = Planned | Suspended | Success | Error(failure: Failure)

  /** Everything a run can change or read, as one value. */
  datatype ActionState = ActionState(input: Input, output: Output, state: RunState, outbox: seq<Message>)

  const ExceptionClassKey: string := "exception_class"
  const ExceptionMessageKey: string := "exception_message"
  const ScriptFailedMessage: string := "Script execution failed"

  /** The output of a freshly planned action: nothing set yet. */
  const EmptyOutput: Output := Output(Unset, None, None)

  /**
   * The command built from the input; it is always run as root. The source
   * memoises it in `@command`; the input never changes after planning, so
   * rebuilding it gives the same command.
   */
  function CommandOf(input: Input): Command
  {
    Command(input.taskId, input.hostname, "root", input.effectiveUser,
            input.script, input.hostPublicKey, input.verifyHost)
  }

  /** `failed_run?`: the task failed when initialization failed or the exit status is not 0. */
  predicate FailedRun(output: Output)
  {
    output.result == InitializationErrorMarker || output.exitStatus != Some(0)
  }

  /** Metadata after an initialization error: class and message added, other keys kept. */
  function WithException(metadata: Option<map<string, string>>, cls: string, msg: string): (m: map<string, string>)
    ensures ExceptionClassKey in m && m[ExceptionClassKey] == cls
    ensures ExceptionMessageKey in m && m[ExceptionMessageKey] == msg
    ensures metadata.Some? ==>
      forall k :: k in metadata.value && k != ExceptionClassKey && k != ExceptionMessageKey ==>
        k in m && m[k] == metadata.value[k]
    ensures metadata.Some? ==> m.Keys == metadata.value.Keys + {ExceptionClassKey, ExceptionMessageKey}
    ensures metadata.None? ==> m.Keys == {ExceptionClassKey, ExceptionMessageKey}
  {
    var base := if metadata.Some? then metadata.value else map[];
    base[ExceptionClassKey := cls][ExceptionMessageKey := msg]
  }

  /** The effect of one `run(event)` on the action, as a value (the specification of `Action.Run`). */
  function Step(s: ActionState, e: Event): ActionState
  {
    match e
    case Start =>
      s.(output := s.output.(result := Entries([])),
         outbox := s.outbox + [InitializeCommand(CommandOf(s.input))],
         state := Suspended)
    case CommandUpdate(entries, exitStatus) =>
      if !s.output.result.Entries? then s.(state := Error(ResultNotAList))
      else
        var appended := s.output.(result := Entries(s.output.result.entries + entries));
        if exitStatus.Some? then s.(output := appended.(exitStatus := exitStatus), state := Success)
        else s.(output := appended, state := Suspended)
    case InitializationError(cls, msg) =>
      s.(output := s.output.(result := InitializationErrorMarker,
                             metadata := Some(WithException(s.output.metadata, cls, msg))),
         state := Success)
    case Cancel =>
      s.(outbox := s.outbox + [Kill(CommandOf(s.input))], state := Suspended)
    case Skip =>
      s.(state := Success)
    case ConnectionTimeout(_, _) =>
      s.(state := Error(UnexpectedEvent))
    case Unexpected(_) =>
      s.(state := Error(UnexpectedEvent))
  }

  /** The effect of `finalize` (the specification of `Action.Finalize`). */
  function FinalizeStep(s: ActionState): ActionState
  {
    if FailedRun(s.output) then s.(state := Error(ScriptExecutionFailed)) else s
  }

  /** The engine delivering `events` one resumption at a time. */
  function RunAll(s: ActionState, events: seq<Event>): ActionState
    decreases |events|
  {
    if events == [] then s else RunAll(Step(s, events[0]), events[1..])
  }

  /** Updates without an exit status, one per batch of entries. */
  function Progress(batches: seq<seq<Entry>>): (events: seq<Event>)
    ensures |events| == |batches|
    ensures forall i :: 0 <= i < |batches| ==> events[i] == CommandUpdate(batches[i], None)
  {
    if batches == [] then [] else [CommandUpdate(batches[0], None)] + Progress(batches[1..])
  }

  /** All entries of the batches, in order. */
  function Flatten(batches: seq<seq<Entry>>): seq<Entry>
  {
    if batches == [] then [] else batches[0] + Flatten(batches[1..])
  }

  /** The number of `Cancel` events in a sequence. */
  function CancelCount(events: seq<Event>): nat
  {
    if events == [] then 0 else (if events[0].Cancel? then 1 else 0) + CancelCount(events[1..])
  }

  /** Running a concatenation of event sequences is running one after the other. */
  lemma {:induction false} RunAllAppend(s: ActionState, a: seq<Event>, b: seq<Event>)
    ensures RunAll(s, a + b) == RunAll(RunAll(s, a), b)
    decreases |a|
  {
    if a == [] {
      assert a + b == b;
    } else {
      assert (a + b)[0] == a[0];
      assert (a + b)[1..] == a[1..] + b;
      RunAllAppend(Step(s, a[0]), a[1..], b);
    }
  }

  /**
   * Updates without an exit status append their entries to the result in
   * arrival order, keep earlier entries, leave the action suspended and send
   * nothing.
   */
  lemma {:induction false} ProgressAppendsInOrder(s: ActionState, batches: seq<seq<Entry>>)
    requires s.output.result.Entries?
    ensures RunAll(s, Progress(batches)) ==
      s.(output := s.output.(result := Entries(s.output.result.entries + Flatten(batches))),
         state := if batches == [] then s.state else Suspended)
    decreases |batches|
  {
    if batches == [] {
      assert s.output.result.entries + [] == s.output.result.entries;
    } else {
      var events := Progress(batches);
      assert events[0] == CommandUpdate(batches[0], None);
      assert events[1..] == Progress(batches[1..]);
      var s' := Step(s, events[0]);
      ProgressAppendsInOrder(s', batches[1..]);
      assert s.output.result.entries + batches[0] + Flatten(batches[1..])
          == s.output.result.entries + Flatten(batches);
    }
  }

  /**
   * Whatever events arrive, the input never changes, the outbox only grows,
   * and every message sent carries the command built from the input: its id
   * is the task id and its ssh user is root.
   */
  lemma {:induction false} MessagesCarryTaskCommand(s: ActionState, events: seq<Event>)
    ensures RunAll(s, events).input == s.input
    ensures s.outbox <= RunAll(s, events).outbox
    ensures forall i :: |s.outbox| <= i < |RunAll(s, events).outbox| ==>
      var m := RunAll(s, events).outbox[i];
      m.command == CommandOf(s.input) && m.command.id == s.input.taskId && m.command.sshUser == "root"
    decreases |events|
  {
    if events != [] {
      var s' := Step(s, events[0]);
      MessagesCarryTaskCommand(s', events[1..]);
    }
  }

  /**
   * Cancels and skips never touch the output; each cancel sends exactly one
   * kill for the action's command and nothing else is sent.
   */
  lemma {:induction false} CancelOnlySendsKill(s: ActionState, events: seq<Event>)
    requires forall i :: 0 <= i < |events| ==> events[i].Cancel? || events[i].Skip?
    ensures RunAll(s, events).output == s.output
    ensures s.outbox <= RunAll(s, events).outbox
    ensures |RunAll(s, events).outbox| == |s.outbox| + CancelCount(events)
    ensures forall i :: |s.outbox| <= i < |RunAll(s, events).outbox| ==>
      RunAll(s, events).outbox[i] == Kill(CommandOf(s.input))
    decreases |events|
  {
    if events != [] {
      var s' := Step(s, events[0]);
      CancelOnlySendsKill(s', events[1..]);
    }
  }

  /**
   * A whole script run: start, progress updates, then an update carrying exit
   * status `code`. The result is every entry in arrival order, the exit status
   * is `code`, exactly one initialize message was sent, the run ends in success,
   * and finalize fails exactly when `code` is not 0.
   */
  lemma {:induction false} ScriptRunLifecycle(s: ActionState, batches: seq<seq<Entry>>, last: seq<Entry>, code: int)
    ensures var r := RunAll(s, [Start] + Progress(batches) + [CommandUpdate(last, Some(code))]);
      && r.output.result == Entries(Flatten(batches) + last)
      && r.output.exitStatus == Some(code)
      && r.output.metadata == s.output.metadata
      && r.state == Success
      && r.outbox == s.outbox + [InitializeCommand(CommandOf(s.input))]
      && (FinalizeStep(r).state == Error(ScriptExecutionFailed) <==> code != 0)
  {
    var started := Step(s, Start);
    assert RunAll(s, [Start]) == started;
    ProgressAppendsInOrder(started, batches);
    assert [] + Flatten(batches) == Flatten(batches);
    var progressed := RunAll(started, Progress(batches));
    RunAllAppend(s, [Start], Progress(batches));
    RunAllAppend(s, [Start] + Progress(batches), [CommandUpdate(last, Some(code))]);
    assert RunAll(progressed, [CommandUpdate(last, Some(code))])
        == Step(progressed, CommandUpdate(last, Some(code)));
  }

  /**
   * One command-execution action: the fields the Ruby object keeps in its
   * input and output hashes, its engine state, and the messages it has told
   * the dispatcher.
   */
  class Action {
    var input: Input
    var output: Output
    var state: RunState
    var outbox: seq<Message>

    /** The fields as one value, to compare with the specification `Step`. */
    function Snapshot(): ActionState
      reads this
    {
      ActionState(input, output, state, outbox)
    }

    /**
     * `plan`: the callback's task id wins when a callback is given; otherwise an
     * existing task id is kept, and only when there is none is `freshId` used.
     */
    constructor Plan(planned: Input, freshId: string)
      ensures planned.callback.Some? ==> input.taskId == planned.callback.value.taskId
      ensures planned.callback.None? && planned.taskId.Some? ==> input.taskId == planned.taskId
      ensures planned.callback.None? && planned.taskId.None? ==> input.taskId == Some(freshId)
      ensures input == planned.(taskId := input.taskId)
      ensures output == EmptyOutput && state == Planned && outbox == []
    {
      if planned.callback.Some? {
        input := planned.(taskId := planned.callback.value.taskId);
      } else if planned.taskId.None? {
        input := planned.(taskId := Some(freshId));
      } else {
        input := planned;
      }
      output := EmptyOutput;
      state := Planned;
      outbox := [];
    }

    /** `init_run`: an empty result, one initialize message, then suspend. */
    method InitRun()
      modifies this
      ensures output == old(output).(result := Entries([]))
      ensures outbox == old(outbox) + [InitializeCommand(CommandOf(input))]
      ensures state == Suspended && input == old(input)
    {
      output := output.(result := Entries([]));
      outbox := outbox + [InitializeCommand(CommandOf(input))];
      state := Suspended;
    }

    /** `kill_run`: one kill message for this action's command, then suspend. */
    method KillRun()
      modifies this
      ensures outbox == old(outbox) + [Kill(CommandOf(input))]
      ensures state == Suspended && output == old(output) && input == old(input)
    {
      outbox := outbox + [Kill(CommandOf(input))];
      state := Suspended;
    }

    /** `finish_run`: record the exit status. */
    method FinishRun(exitStatus: int)
      modifies this`output
      ensures output == old(output).(exitStatus := Some(exitStatus))
    {
      output := output.(exitStatus := Some(exitStatus));
    }

    /**
     * `run(event)`: handle one event. The new fields are exactly those `Step`
     * gives; the clauses after that spell out each kind of event.
     */
    method Run(e: Event)
      modifies this
      ensures Snapshot() == Step(old(Snapshot()), e)
      ensures input == old(input)
      ensures old(outbox) <= outbox
      ensures e.Start? ==>
        output.result == Entries([]) && state == Suspended
        && outbox == old(outbox) + [InitializeCommand(CommandOf(input))]
      ensures e.CommandUpdate? && old(output).result.Entries? ==>
        && output.result == Entries(old(output).result.entries + e.entries)
        && output.exitStatus == (if e.exitStatus.Some? then e.exitStatus else old(output).exitStatus)
        && state == (if e.exitStatus.Some? then Success else Suspended)
        && outbox == old(outbox)
      ensures e.CommandUpdate? && !old(output).result.Entries? ==>
        state == Error(ResultNotAList) && output == old(output) && outbox == old(outbox)
      ensures e.InitializationError? ==>
        && output.result == InitializationErrorMarker
        && output.exitStatus == old(output).exitStatus
        && output.metadata.Some?
        && output.metadata.value[ExceptionClassKey] == e.exceptionClass
        && output.metadata.value[ExceptionMessageKey] == e.exceptionMessage
        && (old(output).metadata.Some? ==>
              forall k :: k in old(output).metadata.value && k != ExceptionClassKey && k != ExceptionMessageKey ==>
                k in output.metadata.value && output.metadata.value[k] == old(output).metadata.value[k])
        && state == Success && outbox == old(outbox)
        && FailedRun(output)
      ensures e.Cancel? ==>
        output == old(output) && state == Suspended
        && outbox == old(outbox) + [Kill(CommandOf(input))]
        && outbox[|outbox| - 1].command.id == input.taskId
      ensures e.Skip? ==> output == old(output) && outbox == old(outbox) && state == Success
      ensures (e.ConnectionTimeout? || e.Unexpected?) ==>
        output == old(output) && outbox == old(outbox) && state == Error(UnexpectedEvent)
    {
      match e
      case Start =>
        InitRun();
      case CommandUpdate(entries, exitStatus) =>
        if !output.result.Entries? {
          state := Error(ResultNotAList);
        } else {
          output := output.(result := Entries(output.result.entries + entries));
          if exitStatus.Some? {
            FinishRun(exitStatus.value);
            state := Success;
          } else {
            state := Suspended;
          }
        }
      case InitializationError(cls, msg) =>
        output := output.(result := InitializationErrorMarker);
        output := output.(metadata := Some(WithException(output.metadata, cls, msg)));
        state := Success;
      case Cancel =>
        KillRun();
      case Skip =>
        state := Success;
      case ConnectionTimeout(_, _) =>
        state := Error(UnexpectedEvent);
      case Unexpected(_) =>
        state := Error(UnexpectedEvent);
    }

    /**
     * `finalize`: the task fails with "Script execution failed" exactly when
     * initialization failed or the exit status is unset or not 0.
     */
    method Finalize() returns (error: Option<string>)
      modifies this`state
      ensures Snapshot() == FinalizeStep(old(Snapshot()))
      ensures error.Some? <==> (output.result == InitializationErrorMarker || output.exitStatus != Some(0))
      ensures error.Some? ==> error.value == ScriptFailedMessage && state == Error(ScriptExecutionFailed)
      ensures error.None? ==> state == old(state) && output.exitStatus == Some(0)
    {
      if FailedRun(output) {
        error := Some(ScriptFailedMessage);
        state := Error(ScriptExecutionFailed);
      } else {
        error := None;
      }
    }
  }
}
