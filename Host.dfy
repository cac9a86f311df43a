/** The host the builder runs on, seen only through what the builder asks of it.
    Every external action (a program run to completion, a program started in
    the background, a file created, a process killed) is answered by a fixed
    oracle `world` from the trace of everything that happened before, so a
    proof about a step holds for every possible behaviour of zfs, dladm,
    bhyve, bhyvectl, arp, mkfile and the file system. Sleeps and log lines are
    recorded in the same trace. */
module Host {
  import opened Text

  datatype Command =
    | Exec(prog: string, args: seq<string>)                     // exec.Command(prog, args...)
    | ExecInto(prog: string, args: seq<string>, file: string)   // the same, stdout sent to an opened file
    | CreateFile(path: string)                                  // os.Create(path)
    | Kill(launch: nat)   // cmd.Process.Kill() on the process the trace's event at this index launched

  /** What the host answered: the program (or file creation, or kill) could
      not be started, with the error's text, or it ran and exited with a code
      and the text it wrote. A started program that has not been waited for is
      described by the outcome it will have. */
  datatype CmdResult =
    | Failed(startError: string)
    | Exited(exitCode: int, out: string, err: string)
  {
    predicate Started() {
      Exited?
    }

    /** cmd.Run() returned nil. */
    predicate Ok() {
      Exited? && exitCode == 0
    }

    /** What a bytes.Buffer attached to the program's stdout holds afterwards. */
    function Stdout(): string {
      if Exited? then out else ""
    }

    /** What a bytes.Buffer attached to the program's stderr holds afterwards. */
    function Stderr(): string {
      if Exited? then err else ""
    }
  }

  /** err.Error() of a failed cmd.Run(): the exit status, or the start error's text. */
  function RunErrorText(r: CmdResult): string {
    if r.Exited? then "exit status " + Itoa(r.exitCode) else r.startError
  }

  /** What cmd.Wait() returned for a started program: nil, an *exec.ExitError
      with the program's exit code (-1 when a signal ended it), or some other
      error. */
  datatype WaitResult = Clean | ExitError(code: int) | OtherError(msg: string)

  /** The wait outcome of a program that started: the exit status decides. */
  function WaitOf(r: CmdResult): (w: WaitResult)
    requires r.Started()
    ensures w.Clean? <==> r.Ok()
    ensures w.ExitError? <==> !r.Ok()
  {
    if r.exitCode == 0 then Clean else ExitError(r.exitCode)
  }

  /** The code a watcher publishes for a wait outcome: the ExitError's code,
      0 for a clean exit and 0 for any other error. */
  function ExitRc(w: WaitResult): (rc: int)
    ensures rc != 0 ==> w.ExitError? && w.code == rc
    ensures w.ExitError? ==> rc == w.code
  {
    if w.ExitError? then w.code else 0
  }

  /** Whichever way a started program ends, the published code is its exit
      status. */
  lemma ExitRcIsExitStatus(r: CmdResult)
    requires r.Started()
    ensures ExitRc(WaitOf(r)) == r.exitCode
  {
  }

  /** A `chan int` of capacity one, through which a watcher publishes the VM's
      exit code; `sent` is everything sent on it. */
  class RcChannel {
    var sent: seq<int>

    constructor ()
      ensures sent == []
    {
      sent := [];
    }

    method Send(rc: int)
      modifies this
      ensures sent == old(sent) + [rc]
    {
      sent := sent + [rc];
    }
  }

  datatype Event =
    | Ran(cmd: Command, result: CmdResult)       // run to completion
    | Started(cmd: Command, result: CmdResult)   // started, not waited for
    | Slept(seconds: nat)
    | Logged(msg: string)

  type World = (seq<Event>, Command) -> CmdResult

  const ZfsPath := "/usr/sbin/zfs"
  const DladmPath := "/usr/sbin/dladm"
  const ArpPath := "/usr/sbin/arp"
  const MkfilePath := "/usr/sbin/mkfile"
  const BhyvePath := "/usr/sbin/bhyve"
  const BhyvectlPath := "/usr/sbin/bhyvectl"

  function Runs(events: seq<Event>): nat {
    if events == [] then 0 else (if events[0].Ran? then 1 else 0) + Runs(events[1..])
  }

  function Sleeps(events: seq<Event>): nat {
    if events == [] then 0 else (if events[0].Slept? then 1 else 0) + Sleeps(events[1..])
  }

  function LogLines(events: seq<Event>): nat {
    if events == [] then 0 else (if events[0].Logged? then 1 else 0) + LogLines(events[1..])
  }

  lemma {:induction false} CountsAppend(a: seq<Event>, b: seq<Event>)
    ensures Runs(a + b) == Runs(a) + Runs(b)
    ensures Sleeps(a + b) == Sleeps(a) + Sleeps(b)
    ensures LogLines(a + b) == LogLines(a) + LogLines(b)
  {
    if a == [] {
      assert a + b == b;
    } else {
      assert (a + b)[0] == a[0];
      assert (a + b)[1..] == a[1..] + b;
      CountsAppend(a[1..], b);
    }
  }

  class Shell {
    const world: World
    /** Whether the build's context has been cancelled, given the trace so far. */
    const interrupted: seq<Event> -> bool
    var trace: seq<Event>

    constructor (world: World, interrupted: seq<Event> -> bool)
      ensures this.world == world && this.interrupted == interrupted && trace == []
    {
      this.world := world;
      this.interrupted := interrupted;
      trace := [];
    }

    /** cmd.Run(): waits for the program and records its result. */
    method Run(cmd: Command) returns (r: CmdResult)
      modifies this
      ensures r == world(old(trace), cmd)
      ensures trace == old(trace) + [Ran(cmd, r)]
    {
      r := world(trace, cmd);
      trace := trace + [Ran(cmd, r)];
    }

    /** cmd.Start(): launches the program without waiting for it. */
    method Start(cmd: Command) returns (r: CmdResult)
      modifies this
      ensures r == world(old(trace), cmd)
      ensures trace == old(trace) + [Started(cmd, r)]
    {
      r := world(trace, cmd);
      trace := trace + [Started(cmd, r)];
    }

    method Sleep(seconds: nat)
      modifies this
      ensures trace == old(trace) + [Slept(seconds)]
    {
      trace := trace + [Slept(seconds)];
    }

    method Log(msg: string)
      modifies this
      ensures trace == old(trace) + [Logged(msg)]
    {
      trace := trace + [Logged(msg)];
    }
  }
}
