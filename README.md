# ConhostConnection: a verified model of the local pseudo-console connection

This project models `ConhostConnection`, the terminal connection that runs a
shell behind a pseudo console hosted by conhost
(`src/cascadia/TerminalConnection/ConhostConnection.cpp`). The model covers
these parts of its lifecycle:

- the constructor's GUID defaulting and `Guid()`;
- `Start`, with its fixed order of calls and its success decision;
- `WriteInput` and `Resize`, which are gated on `_connected` and `_closing`;
- `Close`, which runs its teardown at most once and in a fixed order;
- the output thread's read loop;
- the `WT_SESSION` value;
- the text shown once the shell has exited.

The connection is the class `TerminalConnection.ConhostConnection`. Its fields
mirror the C++ members:

- the command line, the starting directory and the GUID;
- `_initialRows` and `_initialCols`;
- `_connected` and `_closing`;
- the startup and exit codes.

Every handle member is an ownership flag in one `Handles` record. Every call
into the operating system and every event fired to the handlers is an
`Effect` appended to the field `trace`. What the operating system reports back
is passed in as a parameter:

- the first `Start` call that fails, if any;
- the two `DWORD`s read from the process-information pipe;
- the sequence of pipe reads;
- the exit code.

The module `ConhostSpec` holds the values, the effects and the specification
functions the methods are proved against:

- `StartPlan` and `StartEffects` for `Start`;
- `Teardown` for `Close`;
- `OutputTrace` and `OutputExit` for the output thread.

It also holds the lemmas stating what the source promises about them. The
module `Decimal` models how an output stream writes a `DWORD` in decimal, and
gives a reading back that serves as the reference.

Files: `wrappers.dfy` (Option), `decimal.dfy`, `conhost_spec.dfy`,
`conhost_connection.dfy`.

## Model

| member | source | states |
|---|---|---|
| TerminalConnection.ConhostConnection.constructor | src/cascadia/TerminalConnection/ConhostConnection.cpp:19-34 | The arguments are stored. A non-zero GUID is kept. The all-zero GUID is replaced by the freshly created one. The connection starts unconnected, not closing, owning no handle and with an empty trace. |
| TerminalConnection.ConhostConnection.Guid | src/cascadia/TerminalConnection/ConhostConnection.cpp:36-39 | Returns the GUID fixed by the constructor. |
| TerminalConnection.ConhostConnection.Start | src/cascadia/TerminalConnection/ConhostConnection.cpp:61-144 | The calls made are `StartEffects`: the start-up plan up to and including the first failing call. It throws at that call. Otherwise it returns true exactly when the startup error code is `ERROR_SUCCESS`. `_connected` becomes true once the resume succeeds, whatever the startup result. The handles end as `StartHandles` says. The startup error code is recorded when no call fails. |
| TerminalConnection.ConhostConnection.CreatePty | src/cascadia/TerminalConnection/ConhostConnection.cpp:82-94 | Creates the pseudo console suspended, at the recorded size cast to `short`, with the session value. The pipes and process information are owned exactly when this succeeds. |
| TerminalConnection.ConhostConnection.SetUpJob | src/cascadia/TerminalConnection/ConhostConnection.cpp:96-111 | Creates the job, sets its kill-on-close limit and assigns conhost to it, in that order, and stops at the first failure. The job is owned exactly when its creation succeeds. |
| TerminalConnection.ConhostConnection.LaunchOutputThread | src/cascadia/TerminalConnection/ConhostConnection.cpp:113-126 | Creates the output thread and then resumes conhost. The thread is owned exactly when its creation succeeds. The connection is connected exactly when the resume succeeds. |
| TerminalConnection.ConhostConnection.AwaitStartupMessage | src/cascadia/TerminalConnection/ConhostConnection.cpp:128-143 | Connects, reads and disconnects the information pipe. It returns true exactly when the error code read is `ERROR_SUCCESS`. The shell's process is opened only on success. |
| TerminalConnection.ConhostConnection.WriteInput | src/cascadia/TerminalConnection/ConhostConnection.cpp:146-157 | No effect and no change when not connected or closing. Otherwise exactly one pipe write, of the given data. |
| TerminalConnection.ConhostConnection.Resize | src/cascadia/TerminalConnection/ConhostConnection.cpp:159-170 | Before connecting, it records rows and columns and emits nothing. Connected and not closing, it emits one resize signal, columns first, each clamped with minimum 1, and keeps the geometry. Connected and closing, it does nothing. |
| TerminalConnection.ConhostConnection.Close | src/cascadia/TerminalConnection/ConhostConnection.cpp:172-198 | Changes nothing on a connection never started or already closing, so a second call is a no-op. The first call on a connected one sets `_closing`, appends exactly `Teardown`, and releases every handle but the shell's process handle. |
| TerminalConnection.ConhostConnection.ExitMessage | src/cascadia/TerminalConnection/ConhostConnection.cpp:225-230 | The message reads back, through `ParseDisconnectionMessage`, as the recorded exit code. |
| TerminalConnection.ConhostConnection.ExitTabTitle | src/cascadia/TerminalConnection/ConhostConnection.cpp:232-237 | The title reads back, through `ParseDisconnectionTabTitle`, as the recorded exit code and the previous title. |
| TerminalConnection.ConhostConnection.OutputThread | src/cascadia/TerminalConnection/ConhostConnection.cpp:245-287 | The events and calls are `OutputTrace` of the reads. The return value is `OutputExit`. The process handle is released, and the exit code recorded, only on a disconnection and only when a handle was owned. |
| TerminalConnection.ConhostConnection.ReportDisconnection | src/cascadia/TerminalConnection/ConhostConnection.cpp:262-271 | Waits for the shell, reads its exit code and releases its handle only when one is owned. The disconnected event always comes last. |
| ConhostSpec.ToShort | src/cascadia/TerminalConnection/ConhostConnection.cpp:86-87 | `static_cast<short>` lies in the `short` range, agrees with its argument modulo 2^16, and is the identity up to `SHRT_MAX`. |
| ConhostSpec.ClampToShortMax | src/cascadia/TerminalConnection/ConhostConnection.cpp:168 | The result lies between the minimum and `SHRT_MAX`. It equals the value when the value is in range, and otherwise the nearer bound. |
| ConhostSpec.SessionIdOfBraced | src/cascadia/TerminalConnection/ConhostConnection.cpp:72-79 | Removing the first and last characters of a braced GUID string gives back the GUID text. |
| ConhostSpec.BracedSessionId | src/cascadia/TerminalConnection/ConhostConnection.cpp:72-79 | Any braced text is the braced form of its `WT_SESSION` value. |
| ConhostSpec.StartHandles | src/cascadia/TerminalConnection/ConhostConnection.cpp:83-143 | A start that succeeds owns every handle. A start whose pseudo console cannot be created owns none of the pseudo console's. |
| ConhostSpec.StartOrder | src/cascadia/TerminalConnection/ConhostConnection.cpp:83-126 | On every outcome, the calls start with a suspended pseudo console. The job is created and limited before the assignment, the assignment comes before the thread, the thread before the resume, and the pipe read before the process is opened. |
| ConhostSpec.StartEffectsReached | src/cascadia/TerminalConnection/ConhostConnection.cpp:83-143 | A start failing at a step makes exactly the calls up to that step. The last call opens the process exactly when nothing fails and the error code is `ERROR_SUCCESS`. When reached, the thread and the resume are the fifth and sixth calls. |
| ConhostSpec.TeardownPipesFirst | src/cascadia/TerminalConnection/ConhostConnection.cpp:181-185 | The signal pipe is closed before both data pipes, and the output pipe before the output thread is joined. |
| ConhostSpec.TeardownJoinsBeforeWaiting | src/cascadia/TerminalConnection/ConhostConnection.cpp:187-196 | The output thread is joined before conhost is waited for and its process information released. Conhost is waited for before the job is released. |
| ConhostSpec.OutputTraceShape | src/cascadia/TerminalConnection/ConhostConnection.cpp:251-286 | The thread's effects are one output per read before the stopping read, followed by the disconnection tail exactly when the loop disconnects. |
| ConhostSpec.OutputExitValue | src/cascadia/TerminalConnection/ConhostConnection.cpp:251-286 | The thread has no result while every read delivered text. It returns `(DWORD)-1` exactly when it disconnects, and 0 exactly when it stops otherwise. |
| ConhostSpec.OutputDisconnectsOnce | src/cascadia/TerminalConnection/ConhostConnection.cpp:254-271 | At most one disconnected event is fired, it is fired exactly when the result is `(DWORD)-1`, and it is the last effect. |
| ConhostSpec.OutputSilentOnClose | src/cascadia/TerminalConnection/ConhostConnection.cpp:254-260 | A failed read observed during a close ends the thread with 0 and no disconnected event. |
| ConhostSpec.OutputChunksInOrder | src/cascadia/TerminalConnection/ConhostConnection.cpp:274-283 | The output events are exactly the non-empty chunks read, in read order, and no output follows the stopping read. |
| ConhostSpec.DisconnectionTabTitleParses | src/cascadia/TerminalConnection/ConhostConnection.cpp:232-237 | `[<code>] <previous title>` reads back as the exit code and the previous title. |
| ConhostSpec.DisconnectionMessageParses | src/cascadia/TerminalConnection/ConhostConnection.cpp:225-230 | The exit message reads back as the exit code it reports. |
| Decimal.ValueOfText | src/cascadia/TerminalConnection/ConhostConnection.cpp:228 | The decimal text written for a `DWORD` denotes that number. |
| Decimal.ReadNumberOfText | src/cascadia/TerminalConnection/ConhostConnection.cpp:235 | Decimal text followed by a non-digit is read back whole, with the index just past it. |

## Left out

- Win32 calls are abstract effects in the trace. This covers `CreateConPty`, the job object calls, `CreateThread`/`ResumeThread`, the named pipe, `ReadFile`/`WriteFile`, `WaitForSingleObject`, `OpenProcess` and `GetExitCodeProcess`. Their results are parameters, and what the host does with the calls is not modelled.
- `Utils::GuidToString` is not part of this model. `Start` receives its text, of at least two characters. `Utils::CreateGuid` is not part of this model either. The constructor receives its result.
- ClampToShortMax: the body of `Utils::ClampToShortMax` is not part of this model. It is modelled as a clamp into the range from the minimum to `SHRT_MAX`, which its name and arguments give.
- The integer type behind `_processExitCode` and `_processStartupErrorCode` is read as `DWORD`. Both start at 0, as the header's member initialisers are not part of this model.
- The constructor's effect on handles: all handle members are taken to start empty.
- Concurrency is not modelled: neither true concurrency between `Close` and the output thread, nor the atomicity of `_closing.exchange`. The exchange is a sequential test-and-set. The value of `_closing` the thread sees at each read is part of each read's input, not the field's value.
- OutputThread: a thread that is still blocked in a read is modelled by a read sequence that runs out; the method then returns `None`. The thread's pipe reader and `UTF8OutPipeReader`'s UTF-8 handling are not modelled. Chunks are opaque strings, and so is `WriteInput`'s UTF-16 to UTF-8 conversion.
- OutputThread: a failing `GetExitCodeProcess` throws inside the thread. This is not modelled; the exit code read is always recorded.
- CreatePty: what `CreateConPty` leaves in its out-parameters when it fails is not known. The model takes the pipes and process information as not owned after a failure.
- The process-information pipe handle is local to `Start` and is never closed there. The model does not track it.
- AwaitStartupMessage: `OpenProcess` is taken to return a valid handle. A null result, which would leave `_processHandle` empty, is not modelled.
- `Start` on a connection that has already been started is modelled by the same sequence: the source has no guard against it.
- `GetConnectionFailatureMessage` is not modelled: its text comes from `FormatMessageW`.
- `GetConnectionFailatureTabTitle` returns the command line unchanged, so there is nothing to state about it beyond the stored field.
- Event handler registration and removal (`TerminalOutput`, `TerminalDisconnected`) are not modelled. Firing an event is one effect.
- `StaticOutputThreadProc` only forwards to the output thread and is not modelled separately.
- `src/cascadia/TerminalConnection/AzureConnection.h` declares members only. The behaviour behind it is in a file that is not part of this model.
- The connection-state enumeration and `StateChanged` event described for connections in general are not in this version of `ConhostConnection`. The model follows the code's two flags.
