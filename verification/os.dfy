/**
 The operating system as the daemon sees it. Clock, PID file, process table,
 desktop notifier and signals become the state of one `Host` object. Every side
 effect the daemon has on that host is appended to `trace`, so that ordering and
 "only-if" properties can be stated about the trace.
 */
module Os {

  type Pid = int

  /** `datetime.weekday()`: Monday is 0, Sunday is 6. */
  type Weekday = d: int | 0 <= d < 7

  type Hour = h: int | 0 <= h < 24

  /** The two fields of `datetime.datetime.now()` the policy looks at. */
  datatype Clock = Clock(weekday: Weekday, hour: Hour)

  /** One process as `psutil.process_iter` yields it, with the answer
      `is_running()` gives when the daemon asks (it may have exited since
      the listing was taken). */
  datatype Process = Process(pid: Pid, name: string, running: bool)

  /** What `open` followed by `int(file.read())` finds in the PID file. */
  datatype PidFile = Absent | Malformed | Holds(pid: Pid)

  /** How the `notify-send` child process ends: delivered; not started
      (`OSError`, e.g. the program is not installed); or exited with a
      non-zero status (`subprocess.CalledProcessError`, because of `check=True`). */
  datatype NotifyResult = Delivered | OsError | NonZeroExit

  /** The Python exceptions that escape the daemon's functions. */
  datatype Exception = FileNotFoundError | ValueError | CalledProcessError

  datatype Option<T> = None | Some(value: T)

  datatype Result<T> = Ok(value: T) | Err(exception: Exception)

  /** How a Python function without a return value ends. */
  datatype Outcome = Normal | Raised(exception: Exception)

  /** The side effects the daemon has on its host. */
  datatype Action =
    | ReadPidFile               // open and read the PID file
    | ListProcesses             // psutil.process_iter
    | Notify(argv: seq<string>) // subprocess.run of a notify-send command line
    | Terminate(pid: Pid)       // SIGTERM
    | Wait(pids: set<Pid>)      // Process.wait / psutil.wait_procs with a timeout
    | Kill(pid: Pid)            // SIGKILL

  /** The PIDs that the actions send SIGTERM to. */
  function Signalled(actions: seq<Action>): (pids: set<Pid>)
    ensures forall p :: p in pids <==> Terminate(p) in actions
  {
    set i | 0 <= i < |actions| && actions[i].Terminate? :: actions[i].pid
  }

  class Host {
    /** What `datetime.datetime.now()` returns. */
    var now: Clock
    /** The state of the PID file, written only by the game client. */
    var pidFile: PidFile
    /** The live processes: a PID is present exactly when `psutil.pid_exists`
        says so, and maps to what `Process.name()` returns. */
    var procs: map<Pid, string>
    /** What `psutil.process_iter` yields, in iteration order. */
    var listing: seq<Process>
    /** `STEAM_PIDFILE` as a string: `~/.steampid`, expanded and resolved. */
    const pidFilePath: string
    /** The regular files `os.path.isfile` finds. */
    const files: set<string>
    /** How every `notify-send` run ends. */
    const notifySend: NotifyResult
    /** The processes that are still alive when a wait after SIGTERM times
        out; every other process exits within the wait. */
    const stubborn: set<Pid>
    /** Everything the daemon has done to the host, oldest first. */
    var trace: seq<Action>

    constructor (now: Clock, pidFile: PidFile, procs: map<Pid, string>, listing: seq<Process>,
                 pidFilePath: string, files: set<string>, notifySend: NotifyResult, stubborn: set<Pid>)
      ensures this.now == now && this.pidFile == pidFile && this.procs == procs
      ensures this.listing == listing && this.pidFilePath == pidFilePath && this.files == files
      ensures this.notifySend == notifySend && this.stubborn == stubborn && trace == []
    {
      this.now := now;
      this.pidFile := pidFile;
      this.procs := procs;
      this.listing := listing;
      this.pidFilePath := pidFilePath;
      this.files := files;
      this.notifySend := notifySend;
      this.stubborn := stubborn;
      trace := [];
    }

    /** `psutil.process_iter(['pid', 'name'])`. */
    method ProcessIter() returns (ps: seq<Process>)
      modifies this`trace
      ensures trace == old(trace) + [ListProcesses]
      ensures ps == listing
    {
      trace := trace + [ListProcesses];
      ps := listing;
    }

    /** `subprocess.run(argv, check=True)` of the notifier. */
    method RunNotifier(argv: seq<string>) returns (res: NotifyResult)
      modifies this`trace
      ensures trace == old(trace) + [Notify(argv)]
      ensures res == notifySend
    {
      trace := trace + [Notify(argv)];
      res := notifySend;
    }

    /** `Process.terminate()`: SIGTERM. Whether the process obeys shows at the next wait. */
    method SendTerminate(pid: Pid)
      modifies this`trace
      ensures trace == old(trace) + [Terminate(pid)]
    {
      trace := trace + [Terminate(pid)];
    }

    /** `Process.wait(timeout)` and `psutil.wait_procs(procs, timeout)`: the
        processes that exit within the timeout are gone, the others alive. */
    method WaitFor(pids: set<Pid>) returns (gone: set<Pid>, alive: set<Pid>)
      modifies this`trace, this`procs
      ensures trace == old(trace) + [Wait(pids)]
      ensures gone + alive == pids && gone !! alive
      ensures alive == pids * stubborn
      ensures procs == old(procs) - gone
    {
      trace := trace + [Wait(pids)];
      gone, alive := pids - stubborn, pids * stubborn;
      procs := procs - gone;
    }

    /** `Process.kill()`: SIGKILL, which no process survives. */
    method SendKill(pid: Pid)
      modifies this`trace, this`procs
      ensures trace == old(trace) + [Kill(pid)]
      ensures procs == old(procs) - {pid}
    {
      trace := trace + [Kill(pid)];
      procs := procs - {pid};
    }
  }
}
