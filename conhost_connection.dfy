/**
 * `ConhostConnection`: a terminal connection to a shell running behind a
 * pseudo console hosted by conhost. Handles are ownership flags, Win32 calls
 * are effects appended to `trace`, and what the operating system reports back
 * is passed in.
 */
module TerminalConnection {
  import opened Wrappers
  import opened ConhostSpec

  class ConhostConnection {
    const commandline: string
    const startingDirectory: string
    /** `_guid`, fixed once the constructor has run. */
    const guid: Uuid

    var initialRows: uint32
    var initialCols: uint32
    var connected: bool
    var closing: bool
    var processStartupErrorCode: uint32
    var processExitCode: uint32

    /** The handles the connection owns. */
    var handles: Handles

    /** The calls made and the events fired so far, oldest first. */
    var trace: seq<Effect>

    /** A close is only ever in progress on a connection that was started. */
    ghost predicate Valid()
      reads this
    {
      closing ==> connected
    }

    /**
     * Keeps the given GUID unless it is the all-zero GUID, which is replaced
     * by `createdGuid`, the value `Utils::CreateGuid` would return.
     */
    constructor (commandline: string, startingDirectory: string, initialRows: uint32,
                 initialCols: uint32, initialGuid: Uuid, createdGuid: Uuid)
      ensures Valid() && handles == NoHandles
      ensures this.commandline == commandline && this.startingDirectory == startingDirectory
      ensures this.initialRows == initialRows && this.initialCols == initialCols
      ensures initialGuid != NullUuid ==> Guid() == initialGuid
      ensures initialGuid == NullUuid ==> Guid() == createdGuid
      ensures !connected && !closing && trace == []
      ensures processStartupErrorCode == 0 && processExitCode == 0
    {
      this.commandline := commandline;
      this.startingDirectory := startingDirectory;
      this.initialRows := initialRows;
      this.initialCols := initialCols;
      var g := initialGuid;
      if g == NullUuid {
        g := createdGuid;
      }
      this.guid := g;
      connected, closing := false, false;
      processStartupErrorCode, processExitCode := 0, 0;
      handles := NoHandles;
      trace := [];
    }

    /** The connection's GUID. */
    function Guid(): (g: Uuid)
      reads this
      ensures g == guid
    {
      guid
    }

    /**
     * Creates the suspended pseudo console with `WT_SESSION` set, the job that
     * kills it on close and the output thread, then resumes it and reads the
     * startup message. `guidText` is `Utils::GuidToString(_guid)`; `failing`
     * is the first call the operating system fails, if any, which throws.
     */
    method Start(guidText: string, failing: Option<Step>, msg: StartupMessage) returns (r: StartResult)
      requires |guidText| >= 2
      requires Valid()
      modifies this`connected, this`processStartupErrorCode, this`handles, this`trace
      ensures Valid()
      ensures trace == old(trace) + StartEffects(commandline, startingDirectory, initialCols, initialRows,
                                                 SessionId(guidText), failing, msg)
      ensures r == if failing.Some? then Threw(failing.value) else Returned(msg.errorCode == ErrorSuccess)
      ensures connected == (old(connected) || Passes(failing, ResumeStep))
      ensures handles == StartHandles(old(handles), failing, msg)
      ensures processStartupErrorCode == if failing.None? then msg.errorCode else old(processStartupErrorCode)
    {
      var directory := if startingDirectory == [] then None else Some(startingDirectory);
      var session := SessionId(guidText);
      ghost var plan := StartPlan(commandline, startingDirectory, initialCols, initialRows, session, msg);

      var threw := CreatePty(old(trace), plan, directory, session, failing, msg);
      if !threw {
        threw := SetUpJob(old(trace), plan, session, failing, msg);
      }
      if !threw {
        threw := LaunchOutputThread(old(trace), plan, session, failing, msg);
      }
      if threw {
        r := Threw(failing.value);
      } else {
        r := AwaitStartupMessage(old(trace), plan, session, failing, msg);
      }
    }

    /**
     * Lines 83-94 of `Start`: the pseudo console, created suspended with
     * `WT_SESSION` in its environment, at the recorded size.
     */
    method CreatePty(ghost before: seq<Effect>, ghost plan: seq<Effect>, directory: Option<string>, session: string,
                     failing: Option<Step>, ghost msg: StartupMessage) returns (threw: bool)
      requires directory == if startingDirectory == [] then None else Some(startingDirectory)
      requires 9 <= |plan|
      requires plan == StartPlan(commandline, startingDirectory, initialCols, initialRows, session, msg)
      requires trace == before
      modifies this`handles, this`trace
      ensures threw == !Passes(failing, CreatePtyStep)
      ensures var pty := Passes(failing, CreatePtyStep);
        handles == old(handles).(signalPipe := pty, inPipe := pty, outPipe := pty, conhost := pty)
      ensures trace == before + plan[..if threw then CallsMade(failing, |plan|) else 1]
    {
      StartPlanSteps(commandline, startingDirectory, initialCols, initialRows, session, msg);
      trace := trace + [CreatePseudoConsole(commandline, directory, ToShort(initialCols), ToShort(initialRows),
                                            session, true)];
      assert trace == before + plan[..1];
      if failing == Some(CreatePtyStep) {
        handles := handles.(signalPipe := false, inPipe := false, outPipe := false, conhost := false);
        return true;
      }
      handles := handles.(signalPipe := true, inPipe := true, outPipe := true, conhost := true);
      return false;
    }

    /**
     * Lines 96-111 of `Start`: the job object that kills conhost and all its
     * descendants when it is closed, with conhost assigned to it.
     */
    method SetUpJob(ghost before: seq<Effect>, ghost plan: seq<Effect>, ghost session: string, failing: Option<Step>,
                    ghost msg: StartupMessage) returns (threw: bool)
      requires 9 <= |plan|
      requires plan == StartPlan(commandline, startingDirectory, initialCols, initialRows, session, msg)
      requires Passes(failing, CreatePtyStep)
      requires trace == before + plan[..1]
      modifies this`handles, this`trace
      ensures threw == !Passes(failing, AssignJobStep)
      ensures handles == old(handles).(job := Passes(failing, CreateJobStep))
      ensures trace == before + plan[..if threw then CallsMade(failing, |plan|) else 4]
    {
      StartPlanSteps(commandline, startingDirectory, initialCols, initialRows, session, msg);
      AppendNext(before, plan, 1);
      trace := trace + [CreateJob];
      if failing == Some(CreateJobStep) {
        handles := handles.(job := false);
        return true;
      }
      handles := handles.(job := true);
      AppendNext(before, plan, 2);
      trace := trace + [LimitJobKillOnClose];
      if failing == Some(LimitJobStep) {
        return true;
      }
      AppendNext(before, plan, 3);
      trace := trace + [AssignToJob];
      return failing == Some(AssignJobStep);
    }

    /**
     * Lines 113-126 of `Start`: the output thread is created before conhost
     * is resumed, and the connection counts as connected once it is.
     */
    method LaunchOutputThread(ghost before: seq<Effect>, ghost plan: seq<Effect>, ghost session: string,
                               failing: Option<Step>, ghost msg: StartupMessage) returns (threw: bool)
      requires 9 <= |plan|
      requires plan == StartPlan(commandline, startingDirectory, initialCols, initialRows, session, msg)
      requires Passes(failing, AssignJobStep)
      requires trace == before + plan[..4]
      modifies this`handles, this`connected, this`trace
      ensures threw == !Passes(failing, ResumeStep)
      ensures handles == old(handles).(outputThread := Passes(failing, CreateThreadStep))
      ensures connected == (old(connected) || Passes(failing, ResumeStep))
      ensures trace == before + plan[..if threw then CallsMade(failing, |plan|) else 6]
    {
      StartPlanSteps(commandline, startingDirectory, initialCols, initialRows, session, msg);
      AppendNext(before, plan, 4);
      trace := trace + [CreateOutputThread];
      if failing == Some(CreateThreadStep) {
        handles := handles.(outputThread := false);
        return true;
      }
      handles := handles.(outputThread := true);
      AppendNext(before, plan, 5);
      trace := trace + [ResumeConhost];
      if failing == Some(ResumeStep) {
        return true;
      }
      connected := true;
      return false;
    }

    /**
     * Lines 128-143 of `Start`: reads the startup message from the
     * process-information pipe; the start succeeded exactly when its error
     * code is `ERROR_SUCCESS`, and only then is the shell's process opened.
     */
    method AwaitStartupMessage(ghost before: seq<Effect>, ghost plan: seq<Effect>, ghost session: string,
                                failing: Option<Step>, msg: StartupMessage) returns (r: StartResult)
      requires 9 <= |plan|
      requires plan == StartPlan(commandline, startingDirectory, initialCols, initialRows, session, msg)
      requires Passes(failing, ResumeStep)
      requires trace == before + plan[..6]
      modifies this`processStartupErrorCode, this`handles, this`trace
      ensures r == if failing.Some? then Threw(failing.value) else Returned(msg.errorCode == ErrorSuccess)
      ensures processStartupErrorCode == if failing.None? then msg.errorCode else old(processStartupErrorCode)
      ensures handles == old(handles).(process := old(handles).process || (failing.None? && msg.errorCode == ErrorSuccess))
      ensures trace == before + plan[..CallsMade(failing, |plan|)]
    {
      StartPlanSteps(commandline, startingDirectory, initialCols, initialRows, session, msg);
      AppendNext(before, plan, 6);
      trace := trace + [ConnectInfoPipe];
      if failing == Some(ConnectPipeStep) {
        return Threw(ConnectPipeStep);
      }
      AppendNext(before, plan, 7);
      trace := trace + [ReadInfoPipe];
      if failing == Some(ReadPipeStep) {
        return Threw(ReadPipeStep);
      }
      AppendNext(before, plan, 8);
      trace := trace + [DisconnectInfoPipe];
      if failing == Some(DisconnectPipeStep) {
        return Threw(DisconnectPipeStep);
      }

      processStartupErrorCode := msg.errorCode;
      var connectionSuccess := processStartupErrorCode == ErrorSuccess;
      if connectionSuccess {
        AppendNext(before, plan, 9);
        trace := trace + [OpenProcess(msg.processId)];
        handles := handles.(process := true);
      }
      return Returned(connectionSuccess);
    }

    /** Sends `data` down the input pipe, unless not connected or closing. */
    method WriteInput(data: string)
      modifies this`trace
      ensures !old(connected) || old(closing) ==> trace == old(trace)
      ensures old(connected) && !old(closing) ==> trace == old(trace) + [WritePipe(data)]
    {
      if !connected || closing {
        return;
      }
      trace := trace + [WritePipe(data)];
    }

    /**
     * Before connecting, records the geometry for `Start`; once connected and
     * not closing, signals the new size, columns first, each clamped.
     */
    method Resize(rows: uint32, columns: uint32)
      modifies this`initialRows, this`initialCols, this`trace
      ensures !old(connected) ==> initialRows == rows && initialCols == columns && trace == old(trace)
      ensures old(connected) ==> initialRows == old(initialRows) && initialCols == old(initialCols)
      ensures old(connected) && !old(closing) ==>
                trace == old(trace) + [SignalResize(ClampToShortMax(columns, 1), ClampToShortMax(rows, 1))]
      ensures old(connected) && old(closing) ==> trace == old(trace)
    {
      if !connected {
        initialRows := rows;
        initialCols := columns;
      } else if !closing {
        trace := trace + [SignalResize(ClampToShortMax(columns, 1), ClampToShortMax(rows, 1))];
      }
    }

    /**
     * Runs the teardown once: nothing happens on a connection that was never
     * started or whose close has already begun.
     */
    method Close()
      requires Valid()
      modifies this`closing, this`handles, this`trace
      ensures Valid()
      ensures !old(connected) || old(closing) ==> unchanged(this)
      ensures old(connected) ==> closing
      ensures old(connected) && !old(closing) ==>
                trace == old(trace) + Teardown && Released(handles) && handles.process == old(handles).process
    {
      if !connected {
        return;
      }
      var wasClosing := closing;
      closing := true;
      if !wasClosing {
        trace := trace + [ResetSignalPipe, ResetInPipe, ResetOutPipe];
        trace := trace + [JoinOutputThread, ResetOutputThread];
        trace := trace + [WaitConhost, ResetJob, ResetProcessInfo];
        handles := handles.(signalPipe := false, inPipe := false, outPipe := false,
                            outputThread := false, job := false, conhost := false);
      }
    }

    /** The message written when the shell has exited, reporting its exit code. */
    function ExitMessage(): (m: string)
      reads this
      ensures ParseDisconnectionMessage(m) == Some(processExitCode as nat)
    {
      DisconnectionMessageParses(processExitCode);
      DisconnectionMessage(processExitCode)
    }

    /** The tab title once the shell has exited: its exit code ahead of `previousTitle`. */
    function ExitTabTitle(previousTitle: string): (t: string)
      reads this
      ensures ParseDisconnectionTabTitle(t) == Some((processExitCode as nat, previousTitle))
    {
      DisconnectionTabTitleParses(processExitCode, previousTitle);
      DisconnectionTabTitle(processExitCode, previousTitle)
    }

    /**
     * The output thread over the reads `observed`: fires one output event per
     * chunk until a read ends the loop. `exitCode` is what
     * `GetExitCodeProcess` reports. Returns `None` when every read delivered
     * text, so that the thread is still waiting on the pipe.
     */
    method OutputThread(observed: seq<Observation>, exitCode: uint32) returns (code: Option<uint32>)
      modifies this`trace, this`handles, this`processExitCode
      ensures trace == old(trace) + OutputTrace(observed, old(handles).process)
      ensures code == OutputExit(observed)
      ensures handles == if Disconnects(observed) then old(handles).(process := false) else old(handles)
      ensures processExitCode == if old(handles).process && Disconnects(observed) then exitCode
                                 else old(processExitCode)
    {
      ghost var owned := handles.process;
      var i := 0;
      while i < |observed|
        invariant 0 <= i <= |observed|
        invariant forall j :: 0 <= j < i ==> Continues(observed[j])
        invariant old(trace) + OutputTrace(observed, owned) == trace + OutputTrace(observed[i..], owned)
        invariant OutputExit(observed) == OutputExit(observed[i..])
        invariant StopIndex(observed) == i + StopIndex(observed[i..])
        invariant handles == old(handles) && processExitCode == old(processExitCode)
      {
        var r := observed[i];
        assert observed[i..][1..] == observed[i + 1..];
        if !r.result.Data? {
          if r.closing {
            return Some(0);
          }
          ReportDisconnection(exitCode);
          return Some(DwordMinusOne);
        }
        if r.result.chunk == [] {
          return Some(0);
        }
        trace := trace + [FireOutput(r.result.chunk)];
        i := i + 1;
      }
      return None;
    }

    /**
     * The end of the output thread on a failed read outside of a close: waits
     * for the shell, records its exit code and releases its process handle,
     * if one is owned, then fires the disconnected event.
     */
    method ReportDisconnection(exitCode: uint32)
      modifies this`trace, this`handles, this`processExitCode
      ensures trace == old(trace) + DisconnectTail(old(handles).process)
      ensures handles == old(handles).(process := false)
      ensures processExitCode == if old(handles).process then exitCode else old(processExitCode)
    {
      if handles.process {
        trace := trace + [WaitProcess, ReadExitCode];
        processExitCode := exitCode;
        handles := handles.(process := false);
        trace := trace + [ResetProcessHandle];
      }
      trace := trace + [FireDisconnected];
    }
  }
}
