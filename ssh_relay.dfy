/**
 * The relay between a hijacked client socket and an SSH exec channel
 * (`ssh_on_socket` in lib/smart_proxy_remote_execution_ssh/api.rb).
 *
 * The SSH library's event loop is abstracted to the callbacks it invokes, fed
 * to the relay one at a time as events; the socket is abstracted to the log of
 * operations the relay performs on it, and the channel likewise.
 */
module SshRelay {

  /** Operations on the hijacked socket, in the order the relay performs them. */
  datatype SocketOp = Enqueue(chunk: string) | WaitForPendingSends | Close

  /** Operations on the SSH channel. */
  datatype ChannelOp = SendData(data: string) | CloseChannel

  /** Callbacks from the SSH event loop, and the return of `channel.wait`. */
  datatype ChannelEvent =
    | ExecReply(success: bool)                       // the block given to `ch.exec`
    | Process(available: string, socketClosed: bool) // `on_process`: what the socket reports on this tick
    | Data(data: string)                             // `on_data`: remote stdout
    | ExtendedData(dataType: int, data: string)      // `on_extended_data`: remote stderr
    | ExitStatus(status: int)                        // the 'exit-status' request
    | ExitSignal(signal: string)                     // the 'exit-signal' request
    | ChannelClosed                                  // `channel.wait` has returned

  /**
   * Where the relay is in `ssh_on_socket`: waiting for the exec reply, with
   * its callbacks registered, unwound by the "could not execute command"
   * exception, or past `channel.wait`.
   */
  datatype Phase = Executing | Running | Raised | Finished

  /** The relay's variables (`started`, `err_buf`) and what it has done to the socket and the channel. */
  datatype RelayState = RelayState(
    phase: Phase,
    started: bool,
    errBuf: string,
    socket: seq<SocketOp>,
    channel: seq<ChannelOp>)

  /** The pseudo-header sent before the first stdout chunk. */
  const SuccessPreamble: seq<string> := ["Status: 101\r\n", "Connection: upgrade\r\n", "Upgrade: raw\r\n", "\r\n"]

  /** The pseudo-header sent, followed by the error buffer, when no stdout ever came. */
  const ErrorPreamble: seq<string> := ["Status: 400\r\n", "Connection: close\r\n", "\r\n"]

  const Initial: RelayState := RelayState(Executing, false, "", [], [])

  /** Enqueue each chunk, in order. */
  function Enqueues(chunks: seq<string>): (ops: seq<SocketOp>)
    ensures |ops| == |chunks|
    ensures forall i :: 0 <= i < |chunks| ==> ops[i] == Enqueue(chunks[i])
  {
    if chunks == [] then [] else [Enqueue(chunks[0])] + Enqueues(chunks[1..])
  }

  lemma {:induction false} EnqueuesAppend(a: seq<string>, b: seq<string>)
    ensures Enqueues(a + b) == Enqueues(a) + Enqueues(b)
  {
    assert |Enqueues(a + b)| == |Enqueues(a) + Enqueues(b)|;
    forall i | 0 <= i < |a + b|
      ensures Enqueues(a + b)[i] == (Enqueues(a) + Enqueues(b))[i]
    {
      if i < |a| {
        assert (Enqueues(a) + Enqueues(b))[i] == Enqueues(a)[i];
      } else {
        assert (Enqueues(a) + Enqueues(b))[i] == Enqueues(b)[i - |a|];
      }
    }
  }

  /** One callback with the relay's callbacks registered. */
  function OnCallback(s: RelayState, e: ChannelEvent): RelayState
  {
    match e
    case Process(available, socketClosed) =>
      s.(channel := s.channel
                    + (if |available| > 0 then [SendData(available)] else [])
                    + (if socketClosed then [CloseChannel] else []))
    case Data(data) =>
      s.(started := true,
         socket := s.socket + (if s.started then [] else Enqueues(SuccessPreamble)) + [Enqueue(data)])
    case ExtendedData(_, data) =>
      s.(errBuf := s.errBuf + data)
    case ExitStatus(_) =>
      s.(channel := s.channel + [CloseChannel])
    case ExitSignal(_) =>
      s.(channel := s.channel + [CloseChannel])
    case _ => s
  }

  /** The code after `channel.wait`: only when nothing was started, the 400 block, the error text, drain and close. */
  function AfterWait(s: RelayState): RelayState
  {
    if s.started then s.(phase := Finished)
    else s.(phase := Finished,
            socket := s.socket + Enqueues(ErrorPreamble + [s.errBuf]) + [WaitForPendingSends, Close])
  }

  /**
   * The relay's reaction to one event (the specification of the `Relay`
   * methods). Callbacks are only registered once exec succeeded; nothing
   * happens after the exception or after the relay has finished.
   */
  function Step(s: RelayState, e: ChannelEvent): RelayState
  {
    match s.phase
    case Raised => s
    case Finished => s
    case _ =>
      match e
      case ExecReply(success) =>
        if !s.phase.Executing? then s
        else if success then s.(phase := Running)
        else s.(phase := Raised)
      case ChannelClosed => AfterWait(s)
      case _ => if s.phase.Running? then OnCallback(s, e) else s
  }

  /**
   * A step only appends to the socket and the channel; only stdout and the
   * channel's end touch the socket or `started`; after the exception or the
   * end nothing changes.
   */
  lemma StepOnlyAppends(s: RelayState, e: ChannelEvent)
    ensures s.socket <= Step(s, e).socket && s.channel <= Step(s, e).channel
    ensures (s.phase.Raised? || s.phase.Finished?) ==> Step(s, e) == s
    ensures !e.Data? && !e.ChannelClosed? ==> Step(s, e).socket == s.socket && Step(s, e).started == s.started
  {
  }

  /** The relay after a history of events, the last one applied last. */
  function Replay(history: seq<ChannelEvent>): RelayState
    decreases |history|
  {
    if history == [] then Initial else Step(Replay(history[..|history| - 1]), history[|history| - 1])
  }

  lemma ReplaySnoc(history: seq<ChannelEvent>, e: ChannelEvent)
    ensures Replay(history + [e]) == Step(Replay(history), e)
  {
    assert (history + [e])[..|history|] == history;
  }

  /** The events the SSH library delivers between exec and `channel.wait` returning. */
  predicate IsCallback(e: ChannelEvent)
  {
    e.Process? || e.Data? || e.ExtendedData? || e.ExitStatus? || e.ExitSignal?
  }

  // A declarative description of what the relay produces from its callbacks.

  /** The stdout chunks, in arrival order. */
  function StdoutOf(callbacks: seq<ChannelEvent>): seq<string>
    decreases |callbacks|
  {
    if callbacks == [] then []
    else
      var last := callbacks[|callbacks| - 1];
      StdoutOf(callbacks[..|callbacks| - 1]) + (if last.Data? then [last.data] else [])
  }

  /** The stderr text, concatenated in arrival order. */
  function StderrOf(callbacks: seq<ChannelEvent>): string
    decreases |callbacks|
  {
    if callbacks == [] then ""
    else
      var last := callbacks[|callbacks| - 1];
      StderrOf(callbacks[..|callbacks| - 1]) + (if last.ExtendedData? then last.data else "")
  }

  /** What the channel is told: client bytes from each tick that had some, and a close for each closed socket or exit request. */
  function ChannelOpsOf(callbacks: seq<ChannelEvent>): seq<ChannelOp>
    decreases |callbacks|
  {
    if callbacks == [] then []
    else
      var last := callbacks[|callbacks| - 1];
      ChannelOpsOf(callbacks[..|callbacks| - 1]) +
        match last
        case Process(available, socketClosed) =>
          (if |available| > 0 then [SendData(available)] else []) + (if socketClosed then [CloseChannel] else [])
        case ExitStatus(_) => [CloseChannel]
        case ExitSignal(_) => [CloseChannel]
        case _ => []
  }

  /** The socket while the channel is open: nothing until stdout, then the 101 block and every stdout chunk. */
  function Streamed(callbacks: seq<ChannelEvent>): seq<SocketOp>
  {
    if StdoutOf(callbacks) == [] then [] else Enqueues(SuccessPreamble + StdoutOf(callbacks))
  }

  /** The socket after `channel.wait`: the stream if it started, else the 400 block, stderr, drain and close. */
  function Closing(callbacks: seq<ChannelEvent>): seq<SocketOp>
  {
    if StdoutOf(callbacks) == [] then Enqueues(ErrorPreamble + [StderrOf(callbacks)]) + [WaitForPendingSends, Close]
    else Streamed(callbacks)
  }

  /** The relay as the declarative description says it is, after `callbacks` with exec succeeded. */
  function Described(callbacks: seq<ChannelEvent>): RelayState
  {
    RelayState(Running, StdoutOf(callbacks) != [], StderrOf(callbacks), Streamed(callbacks), ChannelOpsOf(callbacks))
  }

  lemma OutputsSnoc(prefix: seq<ChannelEvent>, e: ChannelEvent)
    ensures StdoutOf(prefix + [e]) == StdoutOf(prefix) + (if e.Data? then [e.data] else [])
    ensures StderrOf(prefix + [e]) == StderrOf(prefix) + (if e.ExtendedData? then e.data else "")
    ensures ChannelOpsOf(prefix + [e]) == ChannelOpsOf(prefix) + Step(Described([]), e).channel
  {
    assert (prefix + [e])[..|prefix|] == prefix;
  }

  /** One more callback moves the description exactly as `Step` moves the relay. */
  lemma DescribedStep(prefix: seq<ChannelEvent>, e: ChannelEvent)
    requires IsCallback(e)
    ensures Step(Described(prefix), e) == Described(prefix + [e])
  {
    var callbacks := prefix + [e];
    OutputsSnoc(prefix, e);
    var before, after := Described(prefix), Step(Described(prefix), e);
    if e.Data? {
      assert StdoutOf(callbacks) == StdoutOf(prefix) + [e.data];
      if StdoutOf(prefix) == [] {
        EnqueuesAppend(SuccessPreamble, [e.data]);
        assert SuccessPreamble + StdoutOf(callbacks) == SuccessPreamble + [e.data];
      } else {
        EnqueuesAppend(SuccessPreamble + StdoutOf(prefix), [e.data]);
        assert SuccessPreamble + StdoutOf(callbacks) == (SuccessPreamble + StdoutOf(prefix)) + [e.data];
      }
      assert after.socket == Streamed(callbacks);
    } else {
      assert StdoutOf(callbacks) == StdoutOf(prefix);
      assert after.socket == before.socket;
    }
    assert after.channel == ChannelOpsOf(callbacks);
    assert after.errBuf == StderrOf(callbacks);
  }

  /**
   * After a successful exec, the relay's state is exactly the declarative
   * description: started iff some stdout arrived, the error buffer is all stderr,
   * the socket holds the 101 block and the stdout chunks, and the channel got
   * the client's bytes and the closes.
   */
  lemma {:induction false} RunningMatchesDescription(callbacks: seq<ChannelEvent>)
    requires forall i :: 0 <= i < |callbacks| ==> IsCallback(callbacks[i])
    ensures Replay([ExecReply(true)] + callbacks) == Described(callbacks)
    decreases |callbacks|
  {
    if callbacks == [] {
      ReplaySnoc([], ExecReply(true));
      assert [ExecReply(true)] + callbacks == [] + [ExecReply(true)];
    } else {
      var prefix := callbacks[..|callbacks| - 1];
      var e := callbacks[|callbacks| - 1];
      assert callbacks == prefix + [e];
      assert [ExecReply(true)] + callbacks == ([ExecReply(true)] + prefix) + [e];
      RunningMatchesDescription(prefix);
      ReplaySnoc([ExecReply(true)] + prefix, e);
      DescribedStep(prefix, e);
    }
  }

  /**
   * A whole session whose exec succeeded: when the code after `channel.wait`
   * runs after `callbacks`, the relay is finished and the socket holds exactly
   * `Closing(callbacks)`. `SessionReplay` states the same over the event history.
   */
  lemma SessionOutcome(callbacks: seq<ChannelEvent>)
    requires forall i :: 0 <= i < |callbacks| ==> IsCallback(callbacks[i])
    ensures var final := AfterWait(Replay([ExecReply(true)] + callbacks));
      final.socket == Closing(callbacks) && final.phase == Finished
  {
    RunningMatchesDescription(callbacks);
    ClosingMatchesAfterWait(callbacks);
  }

  /** The code after `channel.wait`, applied to the description, gives `Closing`. */
  lemma ClosingMatchesAfterWait(callbacks: seq<ChannelEvent>)
    ensures AfterWait(Described(callbacks)).socket == Closing(callbacks)
  {
    if StdoutOf(callbacks) == [] {
      assert Described(callbacks).socket == [];
      assert AfterWait(Described(callbacks)).socket
          == [] + Enqueues(ErrorPreamble + [StderrOf(callbacks)]) + [WaitForPendingSends, Close];
    }
  }

  /**
   * The same outcome stated over the whole event history: exec succeeded, the
   * callbacks arrived, and `channel.wait` returned.
   */
  lemma SessionReplay(callbacks: seq<ChannelEvent>, history: seq<ChannelEvent>)
    requires forall i :: 0 <= i < |callbacks| ==> IsCallback(callbacks[i])
    requires history == [ExecReply(true)] + callbacks + [ChannelClosed]
    ensures Replay(history).socket == Closing(callbacks) && Replay(history).phase == Finished
  {
    var running := [ExecReply(true)] + callbacks;
    assert history == running + [ChannelClosed];
    ReplaySnoc(running, ChannelClosed);
    RunningMatchesDescription(callbacks);
    assert Replay(running).phase == Running;
    assert Replay(history) == AfterWait(Replay(running));
    SessionOutcome(callbacks);
  }

  /**
   * On the started path the socket carries the 101 block once, then the first
   * stdout chunk, then the rest in order, and it is neither drained nor closed.
   */
  lemma StartedStreamShape(callbacks: seq<ChannelEvent>)
    requires StdoutOf(callbacks) != []
    ensures |Closing(callbacks)| == |SuccessPreamble| + |StdoutOf(callbacks)|
    ensures Closing(callbacks)[..|SuccessPreamble|] == Enqueues(SuccessPreamble)
    ensures Closing(callbacks)[|SuccessPreamble|] == Enqueue(StdoutOf(callbacks)[0])
    ensures Closing(callbacks)[|SuccessPreamble|..] == Enqueues(StdoutOf(callbacks))
    ensures Close !in Closing(callbacks) && WaitForPendingSends !in Closing(callbacks)
  {
    EnqueuesAppend(SuccessPreamble, StdoutOf(callbacks));
  }

  /**
   * When exec fails the exception unwinds the relay: whatever the library
   * delivers afterwards, nothing is written to the socket or the channel.
   */
  lemma {:induction false} ExecFailureWritesNothing(later: seq<ChannelEvent>)
    ensures Replay([ExecReply(false)] + later) == RelayState(Raised, false, "", [], [])
    decreases |later|
  {
    if later == [] {
      ReplaySnoc([], ExecReply(false));
      assert [ExecReply(false)] + later == [] + [ExecReply(false)];
    } else {
      var prefix := later[..|later| - 1];
      var e := later[|later| - 1];
      assert [ExecReply(false)] + later == ([ExecReply(false)] + prefix) + [e];
      ExecFailureWritesNothing(prefix);
      ReplaySnoc([ExecReply(false)] + prefix, e);
      StepOnlyAppends(Replay([ExecReply(false)] + prefix), e);
    }
  }

  /** Whatever happens next, what was written to the socket stays written, in the same order. */
  lemma {:induction false} SocketIsAppendOnly(history: seq<ChannelEvent>, later: seq<ChannelEvent>)
    ensures Replay(history).socket <= Replay(history + later).socket
    ensures Replay(history).channel <= Replay(history + later).channel
    decreases |later|
  {
    if later == [] {
      assert history + later == history;
    } else {
      var prefix := later[..|later| - 1];
      var e := later[|later| - 1];
      assert history + later == (history + prefix) + [e];
      SocketIsAppendOnly(history, prefix);
      ReplaySnoc(history + prefix, e);
      StepOnlyAppends(Replay(history + prefix), e);
    }
  }

  /**
   * The state of one `ssh_on_socket` call: the local variables `started` and
   * `err_buf`, and the operations performed on the socket and the channel.
   * `history` records the events handled so far.
   */
  class Relay {
    var phase: Phase
    var started: bool
    var errBuf: string
    var socket: seq<SocketOp>
    var channel: seq<ChannelOp>
    ghost var history: seq<ChannelEvent>

    function State(): RelayState
      reads this
    {
      RelayState(phase, started, errBuf, socket, channel)
    }

    ghost predicate Valid()
      reads this
    {
      State() == Replay(history)
    }

    /** `started = false`, `err_buf = ""`, nothing sent yet. */
    constructor ()
      ensures Valid() && history == []
      ensures phase == Executing && !started && errBuf == "" && socket == [] && channel == []
    {
      phase, started, errBuf, socket, channel := Executing, false, "", [], [];
      history := [];
    }

    /** The exec reply: success registers the callbacks; failure raises "could not execute command". */
    method OnExecReply(success: bool)
      requires Valid() && phase == Executing
      modifies this
      ensures Valid() && history == old(history) + [ExecReply(success)]
      ensures phase == (if success then Running else Raised)
      ensures started == old(started) && errBuf == old(errBuf) && socket == old(socket) && channel == old(channel)
    {
      ReplaySnoc(history, ExecReply(success));
      if success {
        phase := Running;
      } else {
        phase := Raised;
      }
      history := history + [ExecReply(success)];
    }

    /** `on_process`: forward the client's available bytes; close the channel if the socket is closed. */
    method OnProcess(available: string, socketClosed: bool)
      requires Valid() && phase == Running
      modifies this
      ensures Valid() && history == old(history) + [Process(available, socketClosed)]
      ensures channel == old(channel)
                         + (if |available| > 0 then [SendData(available)] else [])
                         + (if socketClosed then [CloseChannel] else [])
      ensures phase == old(phase) && started == old(started) && errBuf == old(errBuf) && socket == old(socket)
    {
      ReplaySnoc(history, Process(available, socketClosed));
      if |available| > 0 {
        channel := channel + [SendData(available)];
      }
      if socketClosed {
        channel := channel + [CloseChannel];
      }
      history := history + [Process(available, socketClosed)];
    }

    /** `on_data`: the first chunk is preceded by the 101 block; every chunk is enqueued as is. */
    method OnData(data: string)
      requires Valid() && phase == Running
      modifies this
      ensures Valid() && history == old(history) + [Data(data)]
      ensures started
      ensures socket == old(socket) + (if old(started) then [] else Enqueues(SuccessPreamble)) + [Enqueue(data)]
      ensures phase == old(phase) && errBuf == old(errBuf) && channel == old(channel)
    {
      ReplaySnoc(history, Data(data));
      if !started {
        started := true;
        socket := socket + [Enqueue("Status: 101\r\n")];
        socket := socket + [Enqueue("Connection: upgrade\r\n")];
        socket := socket + [Enqueue("Upgrade: raw\r\n")];
        socket := socket + [Enqueue("\r\n")];
      }
      socket := socket + [Enqueue(data)];
      history := history + [Data(data)];
    }

    /** `on_extended_data`: stderr goes to the error buffer only. */
    method OnExtendedData(dataType: int, data: string)
      requires Valid() && phase == Running
      modifies this
      ensures Valid() && history == old(history) + [ExtendedData(dataType, data)]
      ensures errBuf == old(errBuf) + data
      ensures phase == old(phase) && started == old(started) && socket == old(socket) && channel == old(channel)
    {
      ReplaySnoc(history, ExtendedData(dataType, data));
      errBuf := errBuf + data;
      history := history + [ExtendedData(dataType, data)];
    }

    /** The 'exit-status' request: close the channel; a zero status does not start the stream. */
    method OnExitStatus(status: int)
      requires Valid() && phase == Running
      modifies this
      ensures Valid() && history == old(history) + [ExitStatus(status)]
      ensures channel == old(channel) + [CloseChannel]
      ensures phase == old(phase) && started == old(started) && errBuf == old(errBuf) && socket == old(socket)
    {
      ReplaySnoc(history, ExitStatus(status));
      channel := channel + [CloseChannel];
      history := history + [ExitStatus(status)];
    }

    /** The 'exit-signal' request: close the channel. */
    method OnExitSignal(signal: string)
      requires Valid() && phase == Running
      modifies this
      ensures Valid() && history == old(history) + [ExitSignal(signal)]
      ensures channel == old(channel) + [CloseChannel]
      ensures phase == old(phase) && started == old(started) && errBuf == old(errBuf) && socket == old(socket)
    {
      ReplaySnoc(history, ExitSignal(signal));
      channel := channel + [CloseChannel];
      history := history + [ExitSignal(signal)];
    }

    /**
     * After `channel.wait`: if nothing was started, the 400 block and the error
     * buffer are enqueued, pending sends drained and the socket closed; if the
     * stream started, nothing more happens here.
     */
    method AfterChannelWait()
      requires Valid() && (phase == Executing || phase == Running)
      modifies this
      ensures Valid() && history == old(history) + [ChannelClosed]
      ensures phase == Finished
      ensures old(started) ==> socket == old(socket)
      ensures !old(started) ==>
        socket == old(socket) + Enqueues(ErrorPreamble + [errBuf]) + [WaitForPendingSends, Close]
      ensures started == old(started) && errBuf == old(errBuf) && channel == old(channel)
    {
      ReplaySnoc(history, ChannelClosed);
      if !started {
        socket := socket + [Enqueue("Status: 400\r\n")];
        socket := socket + [Enqueue("Connection: close\r\n")];
        socket := socket + [Enqueue("\r\n")];
        socket := socket + [Enqueue(errBuf)];
        socket := socket + [WaitForPendingSends];
        socket := socket + [Close];
      }
      phase := Finished;
      history := history + [ChannelClosed];
    }
  }
}
