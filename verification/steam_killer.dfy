/**
 The daemon in `steam_killer/__init__.py`: a time policy, a PID-file lookup
 validated by process name, and a notify / SIGTERM / wait / SIGKILL escalation,
 run once at start-up and again whenever the PID file is created or modified.
 */
module SteamKiller {
  import opened Os
  import Policy

  /** The process name the daemon hunts. */
  const Steam := "steam"

  const Summary := "Steam Killer"
  const Body := "Terminating Steam."
  const Icon := "/usr/share/icons/hicolor/256x256/apps/steam.png"

  /** A file-system event delivered by the watcher. */
  datatype FileSystemEvent = FileSystemEvent(srcPath: string)

  /** The actions one call performs, and how the call ends. */
  datatype Run = Run(actions: seq<Action>, outcome: Outcome)

  // ---------------------------------------------------------------- policy

  /** `check_time`: true means "kill". Only Saturday daytime is allowed. */
  function CheckTime(now: Clock): (kill: bool)
    ensures !kill <==> now.weekday == 5 && 6 <= now.hour <= 18
    ensures kill <==> !Policy.SaturdayDaytime.Contains(now)
  {
    var isSaturday := now.weekday == 5;
    var isDaytime := now.hour >= 6 && now.hour <= 18;
    !(isSaturday && isDaytime)
  }

  /** Both hour bounds are inclusive. */
  lemma CheckTimeBounds()
    ensures !CheckTime(Clock(5, 6)) && !CheckTime(Clock(5, 18))
    ensures CheckTime(Clock(5, 5)) && CheckTime(Clock(5, 19))
  {
  }

  /** On any day but Saturday the answer is "kill", whatever the hour. */
  lemma CheckTimeOtherDays(now: Clock)
    requires now.weekday != 5
    ensures CheckTime(now)
  {
  }

  // ------------------------------------------------------- process lookup

  /** `check_proc`: the process with this PID, if one exists and its name is
      exactly `name`. The PID stands for the `psutil.Process` handle. */
  function CheckProc(procs: map<Pid, string>, pid: Pid, name: string): (proc: Option<Pid>)
    ensures proc.Some? <==> pid in procs && procs[pid] == name
    ensures proc.Some? ==> proc.value == pid
  {
    if pid in procs then
      if procs[pid] == name then Some(pid) else None
    else
      None
  }

  /** `read_pidfile`: a missing file raises `FileNotFoundError`, content that
      is not an integer raises `ValueError`; neither is caught. */
  method ReadPidfile(h: Host) returns (r: Result<Pid>)
    modifies h`trace
    ensures h.trace == old(h.trace) + [ReadPidFile]
    ensures match h.pidFile
      case Absent => r == Err(FileNotFoundError)
      case Malformed => r == Err(ValueError)
      case Holds(pid) => r == Ok(pid)
  {
    h.trace := h.trace + [ReadPidFile];
    match h.pidFile
    case Absent => r := Err(FileNotFoundError);
    case Malformed => r := Err(ValueError);
    case Holds(pid) => r := Ok(pid);
  }

  // ---------------------------------------------------------- notification

  /** The `notify-send` command line: title and body always, the icon only
      when its file exists. */
  function NotifyArgv(iconExists: bool): (argv: seq<string>)
    ensures |argv| == if iconExists then 5 else 3
    ensures argv[..3] == ["notify-send", Summary, Body]
    ensures iconExists ==> argv[3..] == ["--icon", Icon]
  {
    ["notify-send", Summary, Body] + if iconExists then ["--icon", Icon] else []
  }

  /** `notify_desktop`: builds the command line by appending, runs it, and
      swallows `OSError`. With `check=True` a non-zero exit raises
      `CalledProcessError`, which is not an `OSError` and escapes. */
  method NotifyDesktop(h: Host) returns (r: Outcome)
    modifies h`trace
    ensures h.trace == old(h.trace) + [Notify(NotifyArgv(Icon in h.files))]
    ensures r.Raised? <==> h.notifySend == NonZeroExit
    ensures r.Raised? ==> r.exception == CalledProcessError
  {
    var cmdList := ["notify-send", Summary, Body];
    if Icon in h.files {
      cmdList := cmdList + ["--icon"];
      cmdList := cmdList + [Icon];
    }
    assert cmdList == NotifyArgv(Icon in h.files);
    var res := h.RunNotifier(cmdList);
    match res
    case Delivered => r := Normal;
    case OsError => r := Normal;  // logged as a warning
    case NonZeroExit => r := Raised(CalledProcessError);
  }

  // ----------------------------------------------------------- escalation

  /** What `terminate_proc` does to process `pid`: notify; then, unless the
      notifier raised, SIGTERM, a bounded wait, and SIGKILL only if the wait
      timed out. */
  function Escalation(argv: seq<string>, notified: NotifyResult, pid: Pid, timesOut: bool): (run: Run)
    ensures |run.actions| >= 1 && run.actions[0] == Notify(argv)
    ensures run.outcome.Raised? <==> notified == NonZeroExit
    ensures notified != NonZeroExit ==> |run.actions| >= 3 && run.actions[1..3] == [Terminate(pid), Wait({pid})]
    ensures Kill(pid) in run.actions <==> notified != NonZeroExit && timesOut
    ensures Signalled(run.actions) == if notified == NonZeroExit then {} else {pid}
  {
    if notified == NonZeroExit then
      Run([Notify(argv)], Raised(CalledProcessError))
    else
      Run([Notify(argv), Terminate(pid), Wait({pid})] + (if timesOut then [Kill(pid)] else []), Normal)
  }

  /** Notification comes first; SIGTERM precedes the wait, and the wait
      precedes SIGKILL; SIGKILL is sent at most once and only to `pid`. */
  lemma EscalationOrder(argv: seq<string>, notified: NotifyResult, pid: Pid, timesOut: bool)
    ensures var acts := Escalation(argv, notified, pid, timesOut).actions;
      && (forall i :: 0 < i < |acts| ==> !acts[i].Notify?)
      && (forall i, j :: 0 <= i < |acts| && 0 <= j < |acts| && acts[i].Terminate? && acts[j].Wait? ==> i < j)
      && (forall i, j :: 0 <= i < |acts| && 0 <= j < |acts| && acts[i].Wait? && acts[j].Kill? ==> i < j)
      && (forall i, j :: 0 <= i < j < |acts| ==> !(acts[i].Kill? && acts[j].Kill?))
      && (forall i :: 0 <= i < |acts| && acts[i].Kill? ==> acts[i].pid == pid)
  {
  }

  /** A notifier that is not installed does not stop the escalation. */
  lemma NotifyOsErrorSwallowed(argv: seq<string>, pid: Pid, timesOut: bool)
    ensures Escalation(argv, OsError, pid, timesOut).outcome == Normal
    ensures Terminate(pid) in Escalation(argv, OsError, pid, timesOut).actions
  {
    assert Escalation(argv, OsError, pid, timesOut).actions[1] == Terminate(pid);
  }

  /** `terminate_proc`. */
  method TerminateProc(h: Host, pid: Pid) returns (r: Outcome)
    modifies h`trace, h`procs
    ensures var run := Escalation(NotifyArgv(Icon in h.files), h.notifySend, pid, pid in h.stubborn);
      && h.trace == old(h.trace) + run.actions
      && r == run.outcome
      && h.procs == old(h.procs) - Signalled(run.actions)
  {
    r := NotifyDesktop(h);
    if r.Raised? {
      return;
    }
    h.SendTerminate(pid);
    var gone, alive := h.WaitFor({pid});
    if pid in alive {
      // psutil.TimeoutExpired
      h.SendKill(pid);
    }
  }

  // ------------------------------------------------------------ evaluation

  /** What `check` does on a host in its current state. */
  function CheckRun(h: Host): (run: Run)
    reads h
    ensures !CheckTime(h.now) ==> run == Run([], Normal)
    ensures CheckTime(h.now) ==> |run.actions| >= 1 && run.actions[0] == ReadPidFile
    ensures Signalled(run.actions) != {} ==>
      && CheckTime(h.now)
      && h.pidFile.Holds?
      && CheckProc(h.procs, h.pidFile.pid, Steam).Some?
      && Signalled(run.actions) == {h.pidFile.pid}
    ensures |run.actions| > 1 ==>
      && CheckTime(h.now)
      && h.pidFile.Holds?
      && CheckProc(h.procs, h.pidFile.pid, Steam).Some?
      && run.actions[1] == Notify(NotifyArgv(Icon in h.files))
    ensures run.outcome.Raised? && h.pidFile.Holds? ==>
      CheckProc(h.procs, h.pidFile.pid, Steam).Some? && h.notifySend == NonZeroExit
  {
    if !CheckTime(h.now) then
      Run([], Normal)
    else
      match h.pidFile
      case Absent => Run([ReadPidFile], Raised(FileNotFoundError))
      case Malformed => Run([ReadPidFile], Raised(ValueError))
      case Holds(pid) =>
        if CheckProc(h.procs, pid, Steam).None? then
          Run([ReadPidFile], Normal)
        else
          var e := Escalation(NotifyArgv(Icon in h.files), h.notifySend, pid, pid in h.stubborn);
          Run([ReadPidFile] + e.actions, e.outcome)
  }

  /** Outside the kill hours `check` neither reads the PID file nor signals anything. */
  lemma CheckQuietInWindow(h: Host)
    requires !CheckTime(h.now)
    ensures CheckRun(h).actions == [] && CheckRun(h).outcome == Normal
  {
  }

  /** In the kill hours, a PID file naming a live "steam" process gets it
      SIGTERM, and SIGKILL exactly when it outlives the wait, unless the
      notifier exited with an error. */
  lemma CheckTerminatesTarget(h: Host, pid: Pid)
    requires CheckTime(h.now) && h.pidFile == Holds(pid)
    requires pid in h.procs && h.procs[pid] == Steam
    requires h.notifySend != NonZeroExit
    ensures Terminate(pid) in CheckRun(h).actions
    ensures Kill(pid) in CheckRun(h).actions <==> pid in h.stubborn
    ensures CheckRun(h).outcome == Normal
  {
    var e := Escalation(NotifyArgv(Icon in h.files), h.notifySend, pid, pid in h.stubborn);
    assert CheckRun(h).actions == [ReadPidFile] + e.actions;
    assert e.actions[1] == Terminate(pid);
  }

  /** A PID file naming a process that does not exist, or is not called
      "steam", leads to the read alone: no notification, no signal, no error. */
  lemma CheckIgnoresOtherProcess(h: Host, pid: Pid)
    requires CheckTime(h.now) && h.pidFile == Holds(pid)
    requires CheckProc(h.procs, pid, Steam).None?
    ensures CheckRun(h) == Run([ReadPidFile], Normal)
  {
  }

  /** A missing or malformed PID file is not treated as "no process": the
      exception escapes `check` after the read, with nothing signalled. */
  lemma CheckPidFileErrorsEscape(h: Host)
    requires CheckTime(h.now) && !h.pidFile.Holds?
    ensures CheckRun(h).actions == [ReadPidFile]
    ensures CheckRun(h).outcome == Raised(if h.pidFile.Absent? then FileNotFoundError else ValueError)
  {
  }

  /** Two checks in a row with nothing changed on the host but what the
      first one did: the second signals nothing, because the process it
      would find is gone. */
  lemma CheckTwiceSignalsOnce(h: Host, h': Host)
    requires h'.now == h.now && h'.pidFile == h.pidFile
    requires h'.procs == h.procs - Signalled(CheckRun(h).actions)
    requires h'.files == h.files && h'.notifySend == h.notifySend && h'.stubborn == h.stubborn
    ensures Signalled(CheckRun(h').actions) == {}
  {
  }

  /** `check`. */
  method Check(h: Host) returns (r: Outcome)
    modifies h`trace, h`procs
    ensures var run := old(CheckRun(h));
      && h.trace == old(h.trace) + run.actions
      && r == run.outcome
      && h.procs == old(h.procs) - Signalled(run.actions)
  {
    if CheckTime(h.now) {
      var read := ReadPidfile(h);
      if read.Err? {
        return Raised(read.exception);
      }
      var proc := CheckProc(h.procs, read.value, Steam);
      if proc.Some? {
        ghost var before := h.trace;
        r := TerminateProc(h, proc.value);
        assert h.trace == old(h.trace) + ([ReadPidFile] + (h.trace[|before|..]));
      } else {
        r := Normal;
      }
    } else {
      r := Normal;
    }
  }

  // ---------------------------------------------------------------- events

  /** `SteamEventHandler`: re-evaluates when the PID file itself is created
      or modified, and ignores every other path. */
  class SteamEventHandler {

    method OnModified(h: Host, event: FileSystemEvent) returns (r: Outcome)
      modifies h`trace, h`procs
      ensures event.srcPath != h.pidFilePath ==>
        h.trace == old(h.trace) && h.procs == old(h.procs) && r == Normal
      ensures event.srcPath == h.pidFilePath ==>
        var run := old(CheckRun(h));
        && h.trace == old(h.trace) + run.actions
        && r == run.outcome
        && h.procs == old(h.procs) - Signalled(run.actions)
    {
      r := Normal;
      if event.srcPath == h.pidFilePath {
        r := Check(h);
      }
    }

    method OnCreated(h: Host, event: FileSystemEvent) returns (r: Outcome)
      modifies h`trace, h`procs
      ensures event.srcPath != h.pidFilePath ==>
        h.trace == old(h.trace) && h.procs == old(h.procs) && r == Normal
      ensures event.srcPath == h.pidFilePath ==>
        var run := old(CheckRun(h));
        && h.trace == old(h.trace) + run.actions
        && r == run.outcome
        && h.procs == old(h.procs) - Signalled(run.actions)
    {
      r := Normal;
      if event.srcPath == h.pidFilePath {
        r := Check(h);
      }
    }
  }
}
