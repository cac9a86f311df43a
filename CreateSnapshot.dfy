/** The last step of a zvol build: the zvol is snapshotted, the snapshot is
    streamed into a file in the output directory, and the snapshot is
    destroyed. The operations run strictly in order and the first failure
    stops the step; nothing already done is undone. Its cleanup does
    nothing. */
module CreateSnapshot {
  import opened Wrappers
  import opened Text
  import opened State
  import opened Host
  import opened Configuration

  /** "<pool>/packer0@final". */
  function SnapshotName(pool: string): string {
    pool + "/packer0@final"
  }

  /** One operation of the step: what it runs, the text its error starts with,
      and whether its error reports the shared stderr buffer (a zfs command)
      or the error value itself (os.Create). */
  datatype Op = Op(cmd: Command, errPrefix: string, usesBuffer: bool)

  /** The four operations, in the order the step performs them. */
  function Ops(pool: string, outputDir: string, vmName: string): seq<Op> {
    var snap := SnapshotName(pool);
    var file := JoinPath(outputDir, vmName);
    [ Op(Exec(ZfsPath, ["snapshot", snap]), "Error creating snapshot: ", true),
      Op(CreateFile(file), "Error creating hard drive in output dir: ", false),
      Op(ExecInto(ZfsPath, ["send", snap], file), "Error sending snapshot: ", true),
      Op(Exec(ZfsPath, ["destroy", snap]), "Error deleting snapshot: ", true) ]
  }

  /** The shared stderr buffer after `op` answered `r`. */
  function BufferAfter(op: Op, r: CmdResult, buf: string): string {
    if op.usesBuffer then buf + r.Stderr() else buf
  }

  /** The error text of a failed `op`: its prefix, then the trimmed shared
      buffer (a zfs command) or the error value's text (os.Create). */
  function ErrorText(op: Op, r: CmdResult, buf: string): (msg: string)
    ensures op.errPrefix <= msg
  {
    op.errPrefix + if op.usesBuffer then TrimSpace(BufferAfter(op, r, buf)) else RunErrorText(r)
  }

  /** The events running `ops` in order adds to trace `t`: one run per
      operation up to and including the first that fails. One stderr buffer
      is shared by the zfs commands (`buf`: what they wrote so far). */
  function Events(world: World, t: seq<Event>, ops: seq<Op>, buf: string): seq<Event>
    decreases |ops|
  {
    if ops == [] then []
    else
      var r := world(t, ops[0].cmd);
      if !r.Ok() then [Ran(ops[0].cmd, r)]
      else [Ran(ops[0].cmd, r)] + Events(world, t + [Ran(ops[0].cmd, r)], ops[1..], BufferAfter(ops[0], r, buf))
  }

  /** The error running `ops` in order records: that of the first operation
      that fails, if any. */
  function FirstFailure(world: World, t: seq<Event>, ops: seq<Op>, buf: string): Option<string>
    decreases |ops|
  {
    if ops == [] then None
    else
      var r := world(t, ops[0].cmd);
      if !r.Ok() then Some(ErrorText(ops[0], r, buf))
      else FirstFailure(world, t + [Ran(ops[0].cmd, r)], ops[1..], BufferAfter(ops[0], r, buf))
  }

  /** The operations run in list order, each at most once, starting with the
      first: event k is the run of operation k. */
  lemma {:induction false} PerformInOrder(world: World, t: seq<Event>, ops: seq<Op>, buf: string)
    ensures var events := Events(world, t, ops, buf);
            && |events| <= |ops|
            && (ops != [] ==> events != [])
            && forall k :: 0 <= k < |events| ==> events[k].Ran? && events[k].cmd == ops[k].cmd
    decreases |ops|
  {
    if ops != [] {
      var r := world(t, ops[0].cmd);
      if r.Ok() {
        var t' := t + [Ran(ops[0].cmd, r)];
        var buf' := BufferAfter(ops[0], r, buf);
        PerformInOrder(world, t', ops[1..], buf');
        var events := Events(world, t, ops, buf);
        var rest := Events(world, t', ops[1..], buf');
        assert events == [Ran(ops[0].cmd, r)] + rest;
        forall k | 0 <= k < |events|
          ensures events[k].Ran? && events[k].cmd == ops[k].cmd
        {
          if k > 0 {
            assert events[k] == rest[k - 1];
          }
        }
      }
    }
  }

  /** Every run succeeded. */
  predicate AllOk(events: seq<Event>) {
    forall k :: 0 <= k < |events| ==> events[k].Ran? && events[k].result.Ok()
  }

  /** No error is recorded exactly when every operation ran and succeeded. */
  lemma {:induction false} PerformSucceeds(world: World, t: seq<Event>, ops: seq<Op>, buf: string)
    ensures var events := Events(world, t, ops, buf);
            FirstFailure(world, t, ops, buf).None? <==> |events| == |ops| && AllOk(events)
    decreases |ops|
  {
    if ops != [] {
      var r := world(t, ops[0].cmd);
      var events := Events(world, t, ops, buf);
      if r.Ok() {
        var t' := t + [Ran(ops[0].cmd, r)];
        var buf' := BufferAfter(ops[0], r, buf);
        var rest := Events(world, t', ops[1..], buf');
        PerformSucceeds(world, t', ops[1..], buf');
        assert events == [Ran(ops[0].cmd, r)] + rest;
        assert events[0] == Ran(ops[0].cmd, r);
        assert forall k :: 0 <= k < |rest| ==> rest[k] == events[k + 1];
        assert AllOk(rest) ==> AllOk(events) by {
          forall k | 0 < k < |events|
            ensures events[k] == rest[k - 1]
          {
          }
        }
      } else {
        assert events[0] == Ran(ops[0].cmd, r);
      }
    }
  }

  /** When an error is recorded, the last operation that ran is the one that
      failed, every earlier one succeeded, and the error carries the failed
      operation's prefix. */
  lemma {:induction false} PerformFails(world: World, t: seq<Event>, ops: seq<Op>, buf: string)
    requires FirstFailure(world, t, ops, buf).Some?
    ensures var events := Events(world, t, ops, buf);
            && 0 < |events| <= |ops|
            && events[|events| - 1].Ran? && !events[|events| - 1].result.Ok()
            && AllOk(events[..|events| - 1])
            && ops[|events| - 1].errPrefix <= FirstFailure(world, t, ops, buf).value
    decreases |ops|
  {
    var r := world(t, ops[0].cmd);
    var events := Events(world, t, ops, buf);
    if r.Ok() {
      var t' := t + [Ran(ops[0].cmd, r)];
      var buf' := BufferAfter(ops[0], r, buf);
      var rest := Events(world, t', ops[1..], buf');
      PerformFails(world, t', ops[1..], buf');
      assert events == [Ran(ops[0].cmd, r)] + rest;
      assert ops[|events| - 1] == ops[1..][|rest| - 1];
      assert events[|events| - 1] == rest[|rest| - 1];
      assert events[..|events| - 1] == [Ran(ops[0].cmd, r)] + rest[..|rest| - 1];
      var init := events[..|events| - 1];
      forall k | 0 < k < |init|
        ensures init[k] == rest[..|rest| - 1][k - 1]
      {
      }
    } else {
      assert events == [Ran(ops[0].cmd, r)];
      assert events[..0] == [];
    }
  }

  /** One block of the step: the operation runs; a failure is recorded under
      "error". `buf'` is the shared stderr buffer afterwards. */
  method Perform1(op: Op, buf: string, sh: Shell, state: StateBag) returns (ok: bool, buf': string)
    modifies sh, state
    ensures var r := sh.world(old(sh.trace), op.cmd);
            && sh.trace == old(sh.trace) + [Ran(op.cmd, r)]
            && ok == r.Ok()
            && buf' == BufferAfter(op, r, buf)
            && state.entries == if ok then old(state.entries)
                                else old(state.entries)[ErrorKey := Failure(ErrorText(op, r, buf))]
  {
    var r := sh.Run(op.cmd);
    buf' := if op.usesBuffer then buf + r.Stderr() else buf;
    ok := r.Ok();
    if !ok {
      state.Put(ErrorKey, Failure(op.errPrefix + if op.usesBuffer then TrimSpace(buf') else RunErrorText(r)));
    }
  }

  /** A failing operation ends the list: it is the last event and its error
      is the one recorded. */
  lemma PerformStops(world: World, t: seq<Event>, ops: seq<Op>, k: nat, buf: string)
    requires k < |ops| && !world(t, ops[k].cmd).Ok()
    ensures var r := world(t, ops[k].cmd);
            && Events(world, t, ops[k..], buf) == [Ran(ops[k].cmd, r)]
            && FirstFailure(world, t, ops[k..], buf) == Some(ErrorText(ops[k], r, buf))
  {
  }

  /** A succeeding operation is followed by the rest of the list, from the
      extended trace and with the grown buffer. */
  lemma PerformAdvance(world: World, t: seq<Event>, ops: seq<Op>, k: nat, buf: string)
    requires k < |ops| && world(t, ops[k].cmd).Ok()
    ensures var r := world(t, ops[k].cmd);
            var t' := t + [Ran(ops[k].cmd, r)];
            var buf' := BufferAfter(ops[k], r, buf);
            && Events(world, t, ops[k..], buf) == [Ran(ops[k].cmd, r)] + Events(world, t', ops[k + 1..], buf')
            && FirstFailure(world, t, ops[k..], buf) == FirstFailure(world, t', ops[k + 1..], buf')
  {
    assert ops[k..][1..] == ops[k + 1..];
  }

  /** Performs `ops` in order with a fresh stderr buffer, stopping at the
      first failure, which is recorded under "error". */
  method PerformAll(ops: seq<Op>, sh: Shell, state: StateBag) returns (ok: bool)
    modifies sh, state
    ensures sh.trace == old(sh.trace) + Events(sh.world, old(sh.trace), ops, "")
    ensures var failure := FirstFailure(sh.world, old(sh.trace), ops, "");
            && (ok <==> failure.None?)
            && state.entries == if failure.None? then old(state.entries)
                                else old(state.entries)[ErrorKey := Failure(failure.value)]
  {
    var stderr := "";
    var k := 0;
    ghost var done: seq<Event> := [];
    assert ops[k..] == ops;
    while k < |ops|
      invariant 0 <= k <= |ops|
      invariant state.entries == old(state.entries)
      invariant sh.trace == old(sh.trace) + done
      invariant Events(sh.world, old(sh.trace), ops, "") == done + Events(sh.world, sh.trace, ops[k..], stderr)
      invariant FirstFailure(sh.world, old(sh.trace), ops, "") == FirstFailure(sh.world, sh.trace, ops[k..], stderr)
    {
      ghost var before := sh.trace;
      ghost var buf := stderr;
      ok, stderr := Perform1(ops[k], stderr, sh, state);
      if !ok {
        PerformStops(sh.world, before, ops, k, buf);
        return;
      }
      PerformAdvance(sh.world, before, ops, k, buf);
      done := done + [Ran(ops[k].cmd, sh.world(before, ops[k].cmd))];
      k := k + 1;
    }
    return true;
  }

  /** stepCreateSnapshot.Run. The source writes the four operations out one
      after the other, each followed by the same early return; here they are
      the iterations of one loop over Ops. */
  method Run(c: Config, sh: Shell, state: StateBag) returns (action: StepAction)
    modifies sh, state
    ensures var ops := Ops(old(c.diskZPool), old(c.outputDir), old(c.vmName));
            var failure := FirstFailure(sh.world, old(sh.trace), ops, "");
            && sh.trace == old(sh.trace) + Events(sh.world, old(sh.trace), ops, "")
            && (action == Continue <==> failure.None?)
            && state.entries == if failure.None? then old(state.entries)
                                else old(state.entries)[ErrorKey := Failure(failure.value)]
  {
    var ok := PerformAll(Ops(c.diskZPool, c.outputDir, c.vmName), sh, state);
    action := if ok then Continue else Halt;
  }
}
