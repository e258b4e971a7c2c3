# steam-killer in Dafny

steam-killer stops the Steam game client outside the hours a household allows
for gaming. Play is allowed only on Saturday from 06:00 to the end of 18:00.
The repository has two entry points, and both are modelled here:

- the daemon `steam_killer/__init__.py`. At start-up, and whenever the Steam
  PID file `~/.steampid` is created or modified, it runs `check`. `check`
  applies the time policy, reads the PID file and confirms that the process
  with that PID is called `steam`. It then notifies the desktop, sends
  SIGTERM, waits, and sends SIGKILL if the process is still there.
- the one-shot script `steam-killer.py`. It applies the same time policy and
  collects every running process named `steam` from the process listing. It
  sends SIGTERM to all of them, waits once for the whole group, and sends
  SIGKILL to each survivor.

The operating system is one `Os.Host` object. Its fields hold:

- the clock;
- the PID file's state;
- the live process table;
- the process listing;
- which files exist;
- how `notify-send` ends;
- which processes outlive a wait after SIGTERM.

Every side effect the program has on the host is appended to `Host.trace`.
The host's primitives (listing processes, running the notifier, SIGTERM, a
wait, SIGKILL) are methods of `Os.Host`. The program's own operations are
module-level methods that take the host, and each is proved against an
independent definition:

- `Check` and the two event handlers against the function `CheckRun`;
- `TerminateProc` against `Escalation`;
- `TerminateProcs` and `RunScript` against `TerminateProcsActions`;
- `CheckProcs` against the filter `Matching`;
- `KillSurvivors` against `Kills` and the predicate `Enumerates`;
- `NotifyDesktop` against the command line `NotifyArgv`;
- `ReadPidfile` against the host's `pidFile` field.

The properties are then proved about those definitions: the order of signals,
who gets SIGKILL, when nothing happens at all, and how errors escape.

Error paths the model keeps from the code:

- `read_pidfile` (`steam_killer/__init__.py:54-57`) raises `FileNotFoundError`
  for a missing file and `ValueError` for content that is not an integer, and
  `check` does not catch either. They come back as `Raised` outcomes of
  `Check`, after the read and with nothing signalled.
- `notify_desktop` catches only `OSError`. With `check=True`, a notifier that
  exits with a non-zero status raises `CalledProcessError`, which escapes
  `terminate_proc` before SIGTERM is sent (`NotifyResult.NonZeroExit`).
- The daemon's `main` runs the first `check` without a `try`. If it raises,
  for example because the PID file is missing during the kill hours, `main`
  ends before the watcher is started, and no later change to the PID file is
  acted on.
- The daemon's `main` does not check that the PID file's directory exists
  before it starts watching.

## Model

| member | source | states |
|---|---|---|
| SteamKiller.CheckTime | steam_killer/__init__.py:17-36 | "kill" is false exactly on Saturday (weekday 5) with the hour in 6..18 inclusive, and so is the complement of the allowed window `Policy.SaturdayDaytime` |
| SteamKiller.CheckTimeBounds | steam_killer/__init__.py:28-31 | both hour bounds are inclusive: 06 and 18 on Saturday are allowed, 05 and 19 are not |
| SteamKiller.CheckTimeOtherDays | steam_killer/__init__.py:21-24 | on any day other than Saturday the answer is "kill", whatever the hour |
| SteamKiller.CheckProc | steam_killer/__init__.py:39-43 | a process is returned exactly when the PID exists and its name equals the wanted name, and it is the process with that PID |
| SteamKiller.ReadPidfile | steam_killer/__init__.py:54-57 | the PID file is read once; a missing file gives `FileNotFoundError`, non-integer content gives `ValueError`, otherwise the PID |
| SteamKiller.NotifyArgv | steam_killer/__init__.py:71-78 | the command line starts with `notify-send`, the title and the body, and adds `--icon` and the icon path at the end exactly when the icon file exists |
| SteamKiller.NotifyDesktop | steam_killer/__init__.py:70-83 | runs the notifier once with that command line; `OSError` is swallowed and only a non-zero exit escapes, as `CalledProcessError` |
| SteamKiller.Escalation | steam_killer/__init__.py:86-97 | notification comes first; unless it raised, it is followed by SIGTERM and a wait for the process; SIGKILL is sent exactly when the wait times out; the process is signalled exactly when the notifier did not raise |
| SteamKiller.EscalationOrder | steam_killer/__init__.py:86-97 | only the first action is a notification; SIGTERM comes before the wait and the wait before SIGKILL; at most one SIGKILL, and only to the target |
| SteamKiller.NotifyOsErrorSwallowed | steam_killer/__init__.py:80-83 | a notifier that cannot be started does not stop the escalation: SIGTERM is still sent and the call ends normally |
| SteamKiller.TerminateProc | steam_killer/__init__.py:86-97 | the host's trace grows by exactly the `Escalation` actions, the outcome is the escalation's, and the signalled process leaves the process table |
| SteamKiller.CheckRun | steam_killer/__init__.py:46-51 | outside the kill hours nothing happens; otherwise the PID file is read first; any action after the read (the notification first) and anything signalled happen only if the time, the file and the name all matched, and only the PID-file process is signalled; an exception with a readable PID file comes only from the notifier of a matched process |
| SteamKiller.CheckIgnoresOtherProcess | steam_killer/__init__.py:46-50 | a PID file naming a process that is missing or not called `steam` leads to the read alone, ending normally |
| SteamKiller.CheckQuietInWindow | steam_killer/__init__.py:46-47 | inside the allowed window `check` performs no action and ends normally |
| SteamKiller.CheckTerminatesTarget | steam_killer/__init__.py:46-51 | in the kill hours, a PID file naming a live `steam` process gets it SIGTERM, and SIGKILL exactly when it outlives the wait, provided `notify-send` does not exit with a non-zero status; the call then ends normally |
| SteamKiller.CheckPidFileErrorsEscape | steam_killer/__init__.py:46-57 | a missing or malformed PID file makes `check` raise after the read, with nothing signalled |
| SteamKiller.CheckTwiceSignalsOnce | steam_killer/__init__.py:46-51 | a second `check` on the host the first one left behind signals nothing |
| SteamKiller.Check | steam_killer/__init__.py:46-51 | the trace grows by exactly the `CheckRun` actions of the state before the call, the outcome is `CheckRun`'s, and the signalled process leaves the process table |
| SteamKiller.SteamEventHandler.OnModified | steam_killer/__init__.py:61-63 | an event on any other path changes nothing; an event on the PID file has exactly the effect and outcome of `check` |
| SteamKiller.SteamEventHandler.OnCreated | steam_killer/__init__.py:65-67 | an event on any other path changes nothing; an event on the PID file has exactly the effect and outcome of `check` |
| SteamKillerScript.CheckConditions | steam-killer.py:8-27 | "kill" is false exactly on Saturday with the hour in 6..18 inclusive, the complement of `Policy.SaturdayDaytime` |
| SteamKillerScript.SameRuleAsDaemon | steam-killer.py:8-27 | the script's rule and the daemon's `check_time` agree at every instant |
| SteamKillerScript.Matching | steam-killer.py:30-35 | never keeps more processes than were listed; which ones it keeps, and in what order, is stated by `MatchingSound`, `MatchingComplete` and `MatchingAppend` |
| SteamKillerScript.MatchingSound | steam-killer.py:33 | every kept process comes from the listing, is running and has the wanted name |
| SteamKillerScript.MatchingComplete | steam-killer.py:33 | every running process in the listing with the wanted name is kept |
| SteamKillerScript.MatchingAppend | steam-killer.py:32-34 | filtering is done piece by piece and keeps listing order: filtering `a + b` is filtering `a`, then `b` |
| SteamKillerScript.CheckProcs | steam-killer.py:30-35 | lists the processes once and returns exactly `Matching` of the listing |
| SteamKillerScript.TerminateProcsActions | steam-killer.py:42-49 | the actions of `terminate_procs`: SIGTERM to each listed process in list order, then one wait for all listed PIDs, then SIGKILL to each PID of `order`, and nothing else |
| SteamKillerScript.TerminateAllBeforeWait | steam-killer.py:42-49 | every listed process gets SIGTERM; all SIGTERMs come before the wait and every SIGKILL after it |
| SteamKillerScript.KillsOnlySurvivors | steam-killer.py:46-49 | a PID gets SIGKILL exactly when it was listed and outlived the wait, and at most once |
| SteamKillerScript.EnumeratesSize | steam-killer.py:48-49 | the survivor loop sends as many SIGKILLs as there are survivors |
| SteamKillerScript.EmptyListNoSignals | steam-killer.py:42-49 | with no process to terminate, no SIGTERM and no SIGKILL is sent |
| SteamKillerScript.KillSurvivors | steam-killer.py:48-49 | SIGKILL to each survivor exactly once in some order, and the survivors leave the process table |
| SteamKillerScript.TerminateProcs | steam-killer.py:42-49 | the trace grows by exactly `TerminateProcsActions` (SIGTERMs in list order, one wait, SIGKILLs to the survivors), and every listed process leaves the process table |
| SteamKillerScript.RunScript | steam-killer.py:51-64 | outside the kill hours nothing happens; otherwise the processes are listed once, and the matching ones, if any, are terminated as `TerminateProcs` states |

## Left out

- Wall-clock time, time zones and `datetime` are left out. The clock is the `Host.now` field, reduced to weekday and hour.
- psutil, signals and timing are left out. The 10-second wait of `terminate_proc` and the 7-second wait of `wait_procs` are both represented by one `Host.stubborn` set: the processes that outlive a wait after SIGTERM.
- A `psutil.Process` handle is represented by its PID. Races are not modelled: `NoSuchProcess` raised between the lookup and a signal, PID reuse, and a process that exits before `name()` is called.
- Parsing by `int()` is left out. The PID file is already classified as absent, malformed, or holding a PID. Other errors of `open`, such as `PermissionError` or `IsADirectoryError`, would escape `check` in the same way, but `PidFile` cannot represent them.
- The watchdog `Observer`, its thread and event delivery are left out. So is the daemon's `main` (`steam_killer/__init__.py:99-114`): its only decision is the initial `check`, which is `Check`, and the rest sets up logging and starts the watcher.
- Logging, the `print` calls of the script, and the `on_terminate` callback (`steam-killer.py:37-39`) only write messages, so they are left out.
- SteamKillerScript.KillSurvivors: the order of SIGKILLs is not fixed. `wait_procs` returns its survivors from a set, so the model only states that each survivor is killed exactly once, in some order recorded by the ghost `order`.
- An exception raised inside an event handler is returned as the handler's outcome. What the watcher thread then does with it is not part of this model.
