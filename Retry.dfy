/** The bounded retry loop both cleanup steps use to remove what the build
    created (the zvol, the VNIC): the command is run up to four times, five
    seconds apart, stopping at the first success; when the last attempt fails
    too, the failure is only logged. */
module Retry {
  import opened Text
  import opened Host

  const Retries := 4
  const RetryDelaySeconds := 5

  /** What attempt i of `retries` adds to the trace once its run answered
      `r`: the run; then, after a failure, a log line with `logPrefix` and the
      trimmed stderr when it was the last attempt, and a sleep otherwise. */
  function AttemptEvents(cmd: Command, r: CmdResult, logPrefix: string, i: nat, retries: nat): seq<Event> {
    if r.Ok() then [Ran(cmd, r)]
    else if i == retries then [Ran(cmd, r), Logged(logPrefix + TrimSpace(r.Stderr()))]
    else [Ran(cmd, r), Slept(RetryDelaySeconds)]
  }

  /** The loop ends after attempt i: it succeeded, or it was the last. */
  predicate Stops(r: CmdResult, i: nat, retries: nat) {
    r.Ok() || i == retries
  }

  /** What attempts i..retries add to the trace `t`: each runs `cmd`; a success
      ends the loop, a failure before the last attempt sleeps and tries again,
      and the failure of the last one logs `logPrefix` with the trimmed stderr. */
  function Attempts(world: World, t: seq<Event>, cmd: Command, logPrefix: string, i: nat, retries: nat): seq<Event>
    decreases retries + 1 - i
  {
    if i > retries then []
    else
      var r := world(t, cmd);
      var e := AttemptEvents(cmd, r, logPrefix, i, retries);
      if Stops(r, i, retries) then e
      else e + Attempts(world, t + e, cmd, logPrefix, i + 1, retries)
  }

  /** One pass of the loop body: the command runs; a success ends the loop
      (`break`), a failure of the last attempt is logged and ends it (`break`),
      any other failure sleeps and goes on (`continue`). */
  method Attempt(cmd: Command, logPrefix: string, i: nat, sh: Shell) returns (stop: bool)
    modifies sh
    ensures var r := sh.world(old(sh.trace), cmd);
            && sh.trace == old(sh.trace) + AttemptEvents(cmd, r, logPrefix, i, Retries)
            && stop == Stops(r, i, Retries)
  {
    var r := sh.Run(cmd);
    if !r.Ok() {
      if i == Retries {
        sh.Log(logPrefix + TrimSpace(r.Stderr()));
        return true;
      }
      sh.Sleep(RetryDelaySeconds);
      return false;
    }
    return true;
  }

  /** The loop `for i := 1; i <= retries; i++` of both cleanups. */
  method RunWithRetries(cmd: Command, logPrefix: string, sh: Shell)
    modifies sh
    ensures sh.trace == old(sh.trace) + Attempts(sh.world, old(sh.trace), cmd, logPrefix, 1, Retries)
  {
    var i := 1;
    while i <= Retries
      invariant 1 <= i <= Retries + 1
      invariant sh.trace + Attempts(sh.world, sh.trace, cmd, logPrefix, i, Retries)
                == old(sh.trace) + Attempts(sh.world, old(sh.trace), cmd, logPrefix, 1, Retries)
    {
      ghost var before := sh.trace;
      var stop := Attempt(cmd, logPrefix, i, sh);
      if stop {
        AttemptsLast(sh.world, before, cmd, logPrefix, i, Retries);
        break;
      }
      AttemptsNext(sh.world, before, cmd, logPrefix, i, Retries);
      i := i + 1;
    }
  }

  /** The attempt that ends the loop adds its own events and nothing more. */
  lemma AttemptsLast(world: World, t: seq<Event>, cmd: Command, logPrefix: string, i: nat, retries: nat)
    requires i <= retries && Stops(world(t, cmd), i, retries)
    ensures Attempts(world, t, cmd, logPrefix, i, retries) == AttemptEvents(cmd, world(t, cmd), logPrefix, i, retries)
  {
  }

  /** An attempt that does not end the loop is followed by the next one. */
  lemma AttemptsUnfold(world: World, t: seq<Event>, cmd: Command, logPrefix: string, i: nat, retries: nat)
    requires i <= retries && !Stops(world(t, cmd), i, retries)
    ensures var e := AttemptEvents(cmd, world(t, cmd), logPrefix, i, retries);
            Attempts(world, t, cmd, logPrefix, i, retries) == e + Attempts(world, t + e, cmd, logPrefix, i + 1, retries)
  {
  }

  /** The same, with the trace before the attempt in front. */
  lemma AttemptsNext(world: World, t: seq<Event>, cmd: Command, logPrefix: string, i: nat, retries: nat)
    requires i <= retries && !Stops(world(t, cmd), i, retries)
    ensures var e := AttemptEvents(cmd, world(t, cmd), logPrefix, i, retries);
            t + Attempts(world, t, cmd, logPrefix, i, retries)
              == (t + e) + Attempts(world, t + e, cmd, logPrefix, i + 1, retries)
  {
    var e := AttemptEvents(cmd, world(t, cmd), logPrefix, i, retries);
    AttemptsUnfold(world, t, cmd, logPrefix, i, retries);
    assert t + (e + Attempts(world, t + e, cmd, logPrefix, i + 1, retries))
      == (t + e) + Attempts(world, t + e, cmd, logPrefix, i + 1, retries);
  }

  /** One attempt runs `cmd` once; it logs once exactly when the last attempt
      fails, and sleeps once exactly when an earlier one fails. */
  lemma AttemptEventsCounts(cmd: Command, r: CmdResult, logPrefix: string, i: nat, retries: nat)
    ensures var e := AttemptEvents(cmd, r, logPrefix, i, retries);
            && Runs(e) == 1
            && LogLines(e) == (if !r.Ok() && i == retries then 1 else 0)
            && Sleeps(e) == (if !r.Ok() && i != retries then 1 else 0)
            && RunsOnly(e, cmd)
            && (!r.Ok() ==> NoSuccess(e))
  {
    if r.Ok() {
      assert Runs([Ran(cmd, r)]) == 1 + Runs([]);
    } else {
      var second := if i == retries then Logged(logPrefix + TrimSpace(r.Stderr())) else Slept(RetryDelaySeconds);
      var e := [Ran(cmd, r), second];
      assert e[1..] == [second] && e[1..][1..] == [];
      assert Runs(e) == 1 + Runs([second]) == 1;
      assert LogLines(e) == LogLines([second]);
      assert Sleeps(e) == Sleeps([second]);
    }
  }

  /** There are between one and retries - i + 1 attempts, and at most one log
      line. */
  lemma {:induction false} AttemptsCount(world: World, t: seq<Event>, cmd: Command, logPrefix: string, i: nat, retries: nat)
    requires 1 <= i <= retries
    ensures var a := Attempts(world, t, cmd, logPrefix, i, retries);
            1 <= Runs(a) <= retries - i + 1 && LogLines(a) <= 1
    decreases retries + 1 - i
  {
    var r := world(t, cmd);
    var e := AttemptEvents(cmd, r, logPrefix, i, retries);
    AttemptEventsCounts(cmd, r, logPrefix, i, retries);
    if Stops(r, i, retries) {
      AttemptsLast(world, t, cmd, logPrefix, i, retries);
    } else {
      var rest := Attempts(world, t + e, cmd, logPrefix, i + 1, retries);
      AttemptsUnfold(world, t, cmd, logPrefix, i, retries);
      AttemptsCount(world, t + e, cmd, logPrefix, i + 1, retries);
      CountsAppend(e, rest);
    }
  }

  /** Every run in `a` is of `cmd`. */
  predicate RunsOnly(a: seq<Event>, cmd: Command) {
    forall k :: 0 <= k < |a| && a[k].Ran? ==> a[k].cmd == cmd
  }

  /** A successful run in `a` can only be its last event. */
  predicate SuccessEnds(a: seq<Event>) {
    forall k :: 0 <= k < |a| && a[k].Ran? && a[k].result.Ok() ==> k == |a| - 1
  }

  /** No run in `a` succeeded. */
  predicate NoSuccess(a: seq<Event>) {
    forall k :: 0 <= k < |a| && a[k].Ran? ==> !a[k].result.Ok()
  }

  /** Every run is of `cmd`, and a run can succeed only as the last event: the
      loop stops at the first success. */
  lemma {:induction false} StopsAtFirstSuccess(world: World, t: seq<Event>, cmd: Command, logPrefix: string, i: nat, retries: nat)
    ensures RunsOnly(Attempts(world, t, cmd, logPrefix, i, retries), cmd)
    ensures SuccessEnds(Attempts(world, t, cmd, logPrefix, i, retries))
    decreases retries + 1 - i
  {
    if i <= retries {
      var r := world(t, cmd);
      var e := AttemptEvents(cmd, r, logPrefix, i, retries);
      AttemptEventsCounts(cmd, r, logPrefix, i, retries);
      if Stops(r, i, retries) {
        AttemptsLast(world, t, cmd, logPrefix, i, retries);
        assert SuccessEnds(e) by {
          if !r.Ok() {
            assert NoSuccess(e);
          }
        }
      } else {
        AttemptsUnfold(world, t, cmd, logPrefix, i, retries);
        StopsAtFirstSuccess(world, t + e, cmd, logPrefix, i + 1, retries);
        FailedPrefix(e, Attempts(world, t + e, cmd, logPrefix, i + 1, retries), cmd);
      }
    }
  }

  /** Failed runs of `cmd` in front keep both properties. */
  lemma FailedPrefix(e: seq<Event>, rest: seq<Event>, cmd: Command)
    requires RunsOnly(e, cmd) && NoSuccess(e)
    requires RunsOnly(rest, cmd) && SuccessEnds(rest)
    ensures RunsOnly(e + rest, cmd) && SuccessEnds(e + rest)
  {
    var a := e + rest;
    forall k | 0 <= k < |a| && a[k].Ran?
      ensures a[k].cmd == cmd && (a[k].result.Ok() ==> k == |a| - 1)
    {
      if k < |e| {
        assert a[k] == e[k];
      } else {
        assert a[k] == rest[k - |e|];
      }
    }
  }

  /** When every attempt fails, the loop runs the command exactly retries - i
      + 1 times, sleeps between attempts only (retries - i times) and logs
      once. */
  lemma {:induction false} AllAttemptsFail(world: World, t: seq<Event>, cmd: Command, logPrefix: string, i: nat, retries: nat)
    requires 1 <= i <= retries
    requires NoSuccess(Attempts(world, t, cmd, logPrefix, i, retries))
    ensures var a := Attempts(world, t, cmd, logPrefix, i, retries);
            && Runs(a) == retries - i + 1
            && Sleeps(a) == retries - i
            && LogLines(a) == 1
    decreases retries + 1 - i
  {
    var a := Attempts(world, t, cmd, logPrefix, i, retries);
    var r := world(t, cmd);
    var e := AttemptEvents(cmd, r, logPrefix, i, retries);
    AttemptEventsCounts(cmd, r, logPrefix, i, retries);
    if Stops(r, i, retries) {
      AttemptsLast(world, t, cmd, logPrefix, i, retries);
      assert a[0] == Ran(cmd, r);
    } else {
      var rest := Attempts(world, t + e, cmd, logPrefix, i + 1, retries);
      AttemptsUnfold(world, t, cmd, logPrefix, i, retries);
      forall k | 0 <= k < |rest| && rest[k].Ran?
        ensures !rest[k].result.Ok()
      {
        assert a[|e| + k] == rest[k];
      }
      AllAttemptsFail(world, t + e, cmd, logPrefix, i + 1, retries);
      CountsAppend(e, rest);
    }
  }
}
