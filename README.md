# Remote-execution SSH proxy: the command action and the `/session` relay

This project models the two pieces of decision and sequencing logic at the
heart of the Smart Proxy remote-execution SSH plugin, and proves properties
of them in Dafny.

* **The command-execution action** (`command_action.dfy`, module
  `CommandAction`). An orchestration-engine action that plans a remote
  command, tells a dispatcher actor to run it, and is then resumed with
  exactly one event at a time. The event is the first run (no event), a
  command update, an initialization error, a cancel, a skip, or anything
  else. The class `Action` holds the action's input, its output hash (result
  list, exit status, metadata), its engine state (planned, suspended,
  success, error) and the outbox of messages told to the dispatcher. Each
  method changes those fields as the Ruby methods change the hashes. The
  pure function `Step` specifies one `run(event)`. `RunAll` specifies a
  sequence of resumptions, and the lemmas about whole runs are stated over
  it.
* **The `POST /session` route** (`session_api.dfy`, module `SessionApi`).
  It covers the upgrade-header gate, the hijack gate, and the building of
  the authentication-method list and the `ssh_options` hash. The Rack
  environment is reduced to the two header values, whether hijacking is
  offered, whether it produced a socket, and the body already parsed into a
  hash. The route's observable effects (hijack, read the body, start the
  relay) are returned in order.
* **The raw-tunnel relay `ssh_on_socket`** (`ssh_relay.dfy`, module
  `SshRelay`). The SSH library's callbacks become events fed to the class
  `Relay`. Those events are the exec reply, a process tick, stdout, stderr,
  exit-status, exit-signal, and the return of `channel.wait`. The socket and
  the channel are the logs of operations performed on them. `Relay` keeps the
  source's `started` flag and `err_buf` string. `Replay` specifies what the
  relay does on a history of events. `Streamed` and `Closing` describe the
  outbound stream declaratively, from the stdout and stderr chunks alone, and
  `RunningMatchesDescription` proves that the two agree.

`wrappers.dfy` holds `Option`, which stands for Ruby's `nil`.

Where this code and the design description of the system differ, the model
follows the code:
- Bad upgrade headers give 401, not 400.
- There is no retry on connection timeouts. A `ConnectionTimeout` event
  reaches the `raise` for unexpected events.
- `started` is a plain flag. A zero exit status does not emit the 101 block.
- On the started path nothing is drained or closed by this code.
- `Skip` ends the run in success whatever the current state.
- The key passphrase is looked up under the symbol key `:ssh_key_passphrase`,
  but a parsed JSON body has string keys only. `BuildSshOptions` therefore
  proves that for parameters parsed from JSON the passphrase is never set.

## Model

| member | source | states |
|---|---|---|
| `CommandAction.Action.Plan` | lib/smart_proxy_remote_execution_ssh/command_action.rb:6-13 | A callback's task id wins when a callback is present. Otherwise an existing task id is kept, and only when none exists is the fresh id used. Nothing else in the input changes. |
| `CommandAction.Action.InitRun` | lib/smart_proxy_remote_execution_ssh/command_action.rb:61-65 | The result becomes the empty list, exactly one `initialize_command` with the input's command is appended to the outbox, and the action suspends. |
| `CommandAction.Action.KillRun` | lib/smart_proxy_remote_execution_ssh/command_action.rb:67-70 | Exactly one `kill` with the input's command is appended, the output is untouched, and the action suspends. |
| `CommandAction.Action.FinishRun` | lib/smart_proxy_remote_execution_ssh/command_action.rb:72-74 | The exit status is recorded and nothing else in the output changes. |
| `CommandAction.Action.Run` | lib/smart_proxy_remote_execution_ssh/command_action.rb:15-39 | One event per call, with the new fields equal to `Step`. Start: empty result, one initialize, suspended. Update: entries appended after the old ones; success when it carries an exit status (then recorded), suspended otherwise; error if the result is not a list. Initialization error: marker result, exception class and message added, other metadata kept, success, and a failed run. Cancel: one kill whose command id is the task id, output untouched, suspended. Skip: nothing changes, success. Timeout or any other event: error. The input never changes and the outbox only grows. |
| `CommandAction.Action.Finalize` | lib/smart_proxy_remote_execution_ssh/command_action.rb:41-78 | Fails with "Script execution failed" exactly when the result is the initialization-error marker or the exit status is not 0 (unset counts as failed). Otherwise the state is unchanged and the exit status is 0. |
| `CommandAction.WithException` | lib/smart_proxy_remote_execution_ssh/command_action.rb:29-31 | After an initialization error the metadata holds the exception class and message, keeps every other key with its value, and gains no other keys. |
| `CommandAction.ProgressAppendsInOrder` | lib/smart_proxy_remote_execution_ssh/command_action.rb:19-26 | Any number of updates without an exit status append every entry in arrival order after the earlier ones, leave the action suspended, and send nothing. |
| `CommandAction.MessagesCarryTaskCommand` | lib/smart_proxy_remote_execution_ssh/command_action.rb:50-59 | Over any sequence of events the input never changes, the outbox only grows, and every message sent carries the input's command: its id is the task id and its ssh user is root. |
| `CommandAction.CancelOnlySendsKill` | lib/smart_proxy_remote_execution_ssh/command_action.rb:32-35 | Cancels and skips never change the output. The outbox grows by exactly one kill for the action's command per cancel. |
| `CommandAction.ScriptRunLifecycle` | lib/smart_proxy_remote_execution_ssh/command_action.rb:15-44 | Start, progress updates, then an update with exit status `code`. The result is every entry in order, the exit status is `code`, exactly one initialize is sent, the run ends in success, and finalize fails exactly when `code` is not 0. |
| `CommandAction.RunAllAppend` | lib/smart_proxy_remote_execution_ssh/command_action.rb:15-39 | Resuming with two event sequences one after the other is the same as resuming with their concatenation. |
| `SessionApi.AuthMethodList` | lib/smart_proxy_remote_execution_ssh/api.rb:23-24 | The list is `["password","publickey"]` when a password is given, else `["publickey"]`. "publickey" is always last. |
| `SessionApi.BuildSshOptions` | lib/smart_proxy_remote_execution_ssh/api.rb:21-34 | Port, keys and password are present exactly when given, with the given values. The passphrase is present exactly when given under a symbol key, with that value, so never for parsed JSON. The stored auth-method list is exactly `["password","publickey"]` or `["publickey"]`. Keys-only true, the auth-method list, the accept-new-or-local-tunnel policy and one password prompt are always set. |
| `SessionApi.HandleSession` | lib/smart_proxy_remote_execution_ssh/api.rb:7-38 | 401 exactly when the headers are not `Connection: upgrade` and `Upgrade: raw`; then nothing else happens. 501 exactly when the headers pass but hijacking is not offered or yields no socket; then the body is never read. Otherwise: hijack, read the body, start the relay with the command, user, host and options, and return 101 once the relay returns. |
| `SshRelay.StepOnlyAppends` | lib/smart_proxy_remote_execution_ssh/api.rb:52-94 | Every callback only appends to the socket and the channel. Only stdout and the end of the channel touch the socket or `started`. After the exception or the end nothing changes. |
| `SshRelay.DescribedStep` | lib/smart_proxy_remote_execution_ssh/api.rb:52-82 | One more callback moves the declarative description of the stream exactly as the relay's step moves its state. |
| `SshRelay.RunningMatchesDescription` | lib/smart_proxy_remote_execution_ssh/api.rb:41-82 | After a successful exec and any callbacks: started iff some stdout arrived; the error buffer is all stderr in order; the socket holds nothing, or the 101 block followed by every stdout chunk in order; the channel got each tick's client bytes and a close for each closed socket, exit status and exit signal. |
| `SshRelay.SessionOutcome` | lib/smart_proxy_remote_execution_ssh/api.rb:86-94 | When the channel wait returns, the relay is finished and the socket holds exactly `Closing`. With no stdout that is the 400 block, the stderr text, a drain and a close. Otherwise it is the 101 stream and nothing more. |
| `SshRelay.ClosingMatchesAfterWait` | lib/smart_proxy_remote_execution_ssh/api.rb:86-94 | The code after the channel wait, applied to the described stream, leaves exactly `Closing` on the socket. |
| `SshRelay.SessionReplay` | lib/smart_proxy_remote_execution_ssh/api.rb:40-97 | Over the whole history (exec succeeded, the callbacks, the channel wait returned) the relay is finished and the socket holds exactly `Closing`. |
| `SshRelay.StartedStreamShape` | lib/smart_proxy_remote_execution_ssh/api.rb:61-70 | Once stdout arrived, the final socket is the 101 block once, then the first stdout chunk, then the others in order. Nothing is drained or closed. |
| `SshRelay.ExecFailureWritesNothing` | lib/smart_proxy_remote_execution_ssh/api.rb:46-47 | When exec fails, nothing is ever written to the socket or the channel, whatever events follow. |
| `SshRelay.SocketIsAppendOnly` | lib/smart_proxy_remote_execution_ssh/api.rb:40-97 | Whatever events follow, what was written to the socket and the channel stays written, in the same order. |
| `SshRelay.Relay.constructor` | lib/smart_proxy_remote_execution_ssh/api.rb:41-42 | `started` is false, `err_buf` is empty, and nothing has been sent. |
| `SshRelay.Relay.OnExecReply` | lib/smart_proxy_remote_execution_ssh/api.rb:46-47 | Success registers the callbacks. Failure raises "could not execute command". Nothing is sent either way. |
| `SshRelay.Relay.OnProcess` | lib/smart_proxy_remote_execution_ssh/api.rb:52-59 | Available client bytes are forwarded to the channel, and a closed socket closes the channel. Nothing else changes. |
| `SshRelay.Relay.OnData` | lib/smart_proxy_remote_execution_ssh/api.rb:61-70 | The first chunk is preceded by the four-line 101 block; later chunks are enqueued alone. `started` becomes true. |
| `SshRelay.Relay.OnExtendedData` | lib/smart_proxy_remote_execution_ssh/api.rb:80-82 | stderr is appended to the error buffer and never enqueued. |
| `SshRelay.Relay.OnExitStatus` | lib/smart_proxy_remote_execution_ssh/api.rb:72-74 | Any exit status, zero included, only closes the channel. The socket and `started` are untouched. |
| `SshRelay.Relay.OnExitSignal` | lib/smart_proxy_remote_execution_ssh/api.rb:76-78 | An exit signal only closes the channel. |
| `SshRelay.Relay.AfterChannelWait` | lib/smart_proxy_remote_execution_ssh/api.rb:86-94 | If nothing was started, the 400 block and the error buffer are enqueued, then pending sends are drained and the socket is closed. If the stream started, nothing more is sent. |

## Left out

- `GET /pubkey` only reads a file; file I/O is not modelled.
- `HandleSession`: on the 101 path it states the main option properties but not the whole options map; `BuildSshOptions` states the map.
- Net::SSH itself is not modelled: connecting, authenticating, opening the channel, the event loop, `channel.wait`, `listen_to` and the buffered socket. Its callbacks are events, and the socket and channel are logs of operations. `ssh_on_socket` has no `rescue`, so connection and authentication failures propagate out of the route. They are not modelled.
- `HandleSession`: any exception from `ssh_on_socket` leaves the route without the 101 being returned. That includes the modelled exec failure (`Relay.OnExecReply` with failure). The route's 101 outcome assumes the relay returned normally, and the route does not model the exception path.
- Rack and Sinatra mechanics are not modelled: routing, the hijack call, and how the returned status is written. The request is reduced to the values the route tests.
- JSON parsing of the body is not modelled. The parameters arrive already parsed, and a malformed body is not modelled.
- `settings.fetch(:ssh_identity_key_file)` is not modelled. The setting's value is a parameter, and a missing setting, which raises, is not modelled.
- The orchestration engine is not modelled: persistence, scheduling of suspend and resume, `plan_with_callback`, the rescue strategy and the suspended-action handle carried in the command. Suspension is the state value `Suspended`.
- `Action.Plan`: the fresh id stands in for `SecureRandom.uuid` and is a parameter. Its uniqueness across plans cannot be stated.
- The dispatcher actor is not modelled. Only the messages told to it are.
- Entries are taken as already formatted by the dispatcher, with their timestamps, so `buffer_to_hash` is not modelled.
- The code has no retry on connection timeouts, so none is modelled. Connection options are not passed to the command, so they are not modelled either. A `ConnectionTimeout` event reaches the unexpected-event error.
- Memoisation of `@command` is not modelled. The command is recomputed from the input, which never changes after planning.
- TLS socket variants and the non-blocking read and write loops are not modelled. They belong to the transport, not to this code.
- `lib/smart_proxy_ssh.rb` only loads files and memoises a singleton. It has no logic to model.
