/** The bhyve driver: the boot and reboot argument lists, and the guards on
    the tracked process and its end channel in Start, Stop, WaitForShutdown and
    the watcher's handling of one exit. */
module Driver {
  import opened Wrappers
  import opened Text
  import opened State
  import opened Host
  import opened VmArgs
  import Configuration

  /** The devices both lists share, on the slots illumos' bhyve brand uses:
      host bridge 0, boot disk 4, NIC 6, framebuffer 30:0, tablet 30:1 and
      LPC 31. */
  function CommonDevices(pool: string, bind: string, port: int, password: string): seq<Device> {
    [ Device("0", "hostbridge,model=i440fx"),
      Device("4", "virtio-blk," + ZvolDevice(pool)),
      Device("6", "virtio-net-viona,vnic=packer0"),
      Device("30:0", FbufSpec(bind, port, password)),
      Device("30:1", "xhci,tablet"),
      Device("31", "lpc") ]
  }

  /** The install CD, on slot 3. */
  function CdDevice(iso: string): Device {
    Device("3", "ahci-cd," + iso)
  }

  function CommonArgs(pool: string, bind: string, port: int, password: string): seq<string> {
    BaseArgs + SlotArgs(CommonDevices(pool, bind, port, password))
  }

  /** The first boot: the common arguments, the CD, then the VM name. */
  function BootArgs(pool: string, bind: string, port: int, password: string, iso: string, vmName: string): seq<string> {
    CommonArgs(pool, bind, port, password) + ["-s", "3,ahci-cd," + iso, vmName]
  }

  /** After a reboot: the common arguments and the VM name, without the CD. */
  function RebootArgs(pool: string, bind: string, port: int, password: string, vmName: string): seq<string> {
    CommonArgs(pool, bind, port, password) + [vmName]
  }

  /** Both lists start with the same common arguments and end with the VM
      name; the boot list differs only by the "-s 3,ahci-cd,<iso>" pair just
      before the name. */
  lemma BootRebootShareCommon(pool: string, bind: string, port: int, password: string, iso: string, vmName: string)
    ensures var common := CommonArgs(pool, bind, port, password);
      var boot := BootArgs(pool, bind, port, password, iso, vmName);
      var reboot := RebootArgs(pool, bind, port, password, vmName);
      && |common| == 20 && |boot| == 23 && |reboot| == 21
      && boot[..20] == common && reboot[..20] == common
      && boot[22] == vmName && reboot[20] == vmName
      && boot[20..22] == ["-s", "3,ahci-cd," + iso]
  {
  }

  /** The boot list is the fixed options, one -s pair per device (the common
      ones and then the CD), and the name. */
  lemma BootArgsAsDevices(pool: string, bind: string, port: int, password: string, iso: string, vmName: string)
    ensures BootArgs(pool, bind, port, password, iso, vmName)
         == BaseArgs + SlotArgs(CommonDevices(pool, bind, port, password) + [CdDevice(iso)]) + [vmName]
  {
    var common := CommonDevices(pool, bind, port, password);
    SlotArgsAppend(common, [CdDevice(iso)]);
    assert [CdDevice(iso)][1..] == [];
    assert "3" + "," + ("ahci-cd," + iso) == "3,ahci-cd," + iso;
    assert SlotArgs([CdDevice(iso)]) == ["-s", "3,ahci-cd," + iso];
  }

  lemma {:induction false} SlotArgsAppend(a: seq<Device>, b: seq<Device>)
    ensures SlotArgs(a + b) == SlotArgs(a) + SlotArgs(b)
  {
    if a == [] {
      assert a + b == b;
    } else {
      assert (a + b)[0] == a[0];
      assert (a + b)[1..] == a[1..] + b;
      SlotArgsAppend(a[1..], b);
    }
  }

  const BootSlots := ["0", "4", "6", "30:0", "30:1", "31", "3"]

  /** The seven devices of the first boot sit on distinct slots. */
  lemma BootSlotsDistinct(pool: string, bind: string, port: int, password: string, iso: string)
    ensures Slots(CommonDevices(pool, bind, port, password) + [CdDevice(iso)]) == BootSlots
    ensures Distinct(BootSlots)
  {
  }

  /** Read as bhyve reads it, the boot list gives each of its seven device
      arguments the slot it was meant for. */
  lemma BootArgsSlots(pool: string, bind: string, port: int, password: string, iso: string, vmName: string)
    ensures var a := BootArgs(pool, bind, port, password, iso, vmName);
      && |a| == 23
      && (forall k :: 0 <= k < 7 ==> a[8 + 2 * k] == "-s" && Split(a[9 + 2 * k], ',')[0] == BootSlots[k])
  {
    var devs := CommonDevices(pool, bind, port, password) + [CdDevice(iso)];
    var s := SlotArgs(devs);
    SlotArgsAt(devs);
    var a := BootArgs(pool, bind, port, password, iso, vmName);
    BootArgsAsDevices(pool, bind, port, password, iso, vmName);
    BootSlotsDistinct(pool, bind, port, password, iso);
    forall k | 0 <= k < 7
      ensures a[8 + 2 * k] == "-s" && Split(a[9 + 2 * k], ',')[0] == BootSlots[k]
    {
      assert a[8 + 2 * k] == s[2 * k];
      assert a[9 + 2 * k] == s[2 * k + 1];
      assert devs[k].slot == Slots(devs)[k];
      SlotReadsBack(devs, k);
    }
  }

  /** A tracked bhyve process: the index in the trace of the event that
      launched it, and whether that launch succeeded (exec.Cmd.Process is nil
      otherwise). */
  datatype Process = Process(launch: nat, launched: bool)

  class BhyveDriver {
    const config: Configuration.Config
    const state: StateBag
    var vmCmd: Option<Process>
    var vmEndCh: Option<RcChannel>
    /** The reboot list Start built, which the watcher goroutine captures to
        relaunch bhyve with after each guest reboot. */
    var rebootArgs: seq<string>

    constructor (config: Configuration.Config, state: StateBag)
      ensures this.config == config && this.state == state
      ensures vmCmd == None && vmEndCh == None && rebootArgs == []
    {
      this.config := config;
      this.state := state;
      vmCmd := None;
      vmEndCh := None;
      rebootArgs := [];
    }

    function Boot(): seq<string>
      reads this, config, state
      requires HasNum(state.entries, VncPortKey) && HasStr(state.entries, VncPasswordKey) && HasStr(state.entries, IsoPathKey)
    {
      BootArgs(config.diskZPool, config.vncBindAddress, state.entries[VncPortKey].n,
               state.entries[VncPasswordKey].s, state.entries[IsoPathKey].s, config.vmName)
    }

    function Reboot(): seq<string>
      reads this, config, state
      requires HasNum(state.entries, VncPortKey) && HasStr(state.entries, VncPasswordKey)
    {
      RebootArgs(config.diskZPool, config.vncBindAddress, state.entries[VncPortKey].n,
                 state.entries[VncPasswordKey].s, config.vmName)
    }

    /** BhyveDriver.Start: panics when a process is already tracked (and when
        the state lacks the VNC port, password or ISO path); otherwise launches
        bhyve with the boot list. A failed launch returns the error and tracks
        nothing; a launch tracks the new process and a fresh, empty end
        channel, and keeps the reboot list for the watcher. */
    method Start(sh: Shell) returns (err: Option<string>)
      requires HasNum(state.entries, VncPortKey) && HasStr(state.entries, VncPasswordKey) && HasStr(state.entries, IsoPathKey)
      requires vmCmd.None?
      modifies this, sh
      ensures var cmd := Exec(BhyvePath, old(Boot()));
              var r := sh.world(old(sh.trace), cmd);
              && sh.trace == old(sh.trace) + [Started(cmd, r)]
              && (!r.Started() ==> err == Some("Error starting VM: " + r.startError)
                                   && vmCmd == None && vmEndCh == old(vmEndCh) && rebootArgs == old(rebootArgs))
              && (r.Started() ==> err == None && vmCmd == Some(Process(|old(sh.trace)|, true))
                                  && vmEndCh.Some? && fresh(vmEndCh.value) && vmEndCh.value.sent == []
                                  && rebootArgs == old(Reboot()))
    {
      var reboot := Reboot();
      var r := sh.Start(Exec(BhyvePath, Boot()));
      if !r.Started() {
        return Some("Error starting VM: " + r.startError);
      }
      var endCh := new RcChannel();
      vmCmd := Some(Process(|sh.trace| - 1, true));
      vmEndCh := Some(endCh);
      rebootArgs := reboot;
      err := None;
    }

    /** BhyveDriver.Stop: kills the tracked process and returns the kill's
        error; with nothing tracked it does nothing. Killing a command whose
        launch failed dereferences a nil process, a panic. */
    method Stop(sh: Shell) returns (err: Option<string>)
      requires vmCmd.Some? ==> vmCmd.value.launched
      modifies sh
      ensures old(vmCmd).None? ==> err == None && sh.trace == old(sh.trace)
      ensures old(vmCmd).Some? ==>
                var r := sh.world(old(sh.trace), Kill(old(vmCmd).value.launch));
                && sh.trace == old(sh.trace) + [Ran(Kill(old(vmCmd).value.launch), r)]
                && err == (if r.Ok() then None else Some(RunErrorText(r)))
    {
      err := None;
      if vmCmd.Some? {
        var r := sh.Run(Kill(vmCmd.value.launch));
        if !r.Ok() {
          err := Some(RunErrorText(r));
        }
      }
    }

    /** BhyveDriver.WaitForShutdown: true at once when no end channel is set;
        otherwise whichever of the end channel and the cancel channel delivers
        first decides: true for the end channel, false for a cancellation. */
    method WaitForShutdown(cancelledFirst: bool) returns (done: bool)
      ensures vmEndCh.None? ==> done
      ensures vmEndCh.Some? ==> done == !cancelledFirst
    {
      var endCh := vmEndCh;
      if endCh.None? {
        return true;
      }
      done := !cancelledFirst;
    }

    /** The watcher's handling of one exit of the tracked process, waited for
        with outcome `w`. A clean exit (the guest rebooted) relaunches bhyve
        with the reboot list Start kept (no CD, the VM name last: see
        BootRebootShareCommon) and tracks the new command, launched or not, and
        sends nothing; any other outcome sends its code (the ExitError's code,
        else 0) on the end channel and clears both the process and the
        channel. */
    method HandleExit(endCh: RcChannel, w: WaitResult, sh: Shell)
      modifies this, endCh, sh
      ensures rebootArgs == old(rebootArgs)
      ensures w.Clean? ==>
                var cmd := Exec(BhyvePath, old(rebootArgs));
                var r := sh.world(old(sh.trace), cmd);
                && sh.trace == old(sh.trace) + [Started(cmd, r)]
                && vmCmd == Some(Process(|old(sh.trace)|, r.Started()))
                && vmEndCh == old(vmEndCh) && endCh.sent == old(endCh.sent)
      ensures !w.Clean? ==>
                && sh.trace == old(sh.trace) && endCh.sent == old(endCh.sent) + [ExitRc(w)]
                && vmCmd == None && vmEndCh == None
    {
      if w.Clean? {
        var r := sh.Start(Exec(BhyvePath, rebootArgs));
        vmCmd := Some(Process(|sh.trace| - 1, r.Started()));
      } else {
        endCh.Send(ExitRc(w));
        vmCmd := None;
        vmEndCh := None;
      }
    }
  }
}
