/** The step that boots the VM: one bhyve process started in the background,
    a watcher that handles its exit, and a cleanup that destroys the VM. */
module StepBhyve {
  import opened Wrappers
  import opened Text
  import opened State
  import opened Host
  import opened VmArgs
  import Configuration

  /** The devices of the build VM, by slot: host bridge, NVMe boot disk on the
      zvol, the install CD, the VNIC, the VNC framebuffer, the USB tablet and
      the LPC bridge. */
  function Devices(pool: string, iso: string, bind: string, port: int, password: string): seq<Device> {
    [ Device("0", "hostbridge,model=i440fx"),
      Device("1", "nvme," + ZvolDevice(pool)),
      Device("2", "ahci-cd," + iso),
      Device("5", "virtio-net-viona,vnic=packer0"),
      Device("29", FbufSpec(bind, port, password)),
      Device("30", "xhci,tablet"),
      Device("31", "lpc") ]
  }

  /** bhyve's arguments: the fixed options, one -s pair per device, then the
      VM name. */
  function Args(pool: string, iso: string, bind: string, port: int, password: string, name: string): seq<string> {
    BaseArgs + SlotArgs(Devices(pool, iso, bind, port, password)) + [name]
  }

  const SlotNumbers := ["0", "1", "2", "5", "29", "30", "31"]

  /** The build VM uses seven distinct slots: 0, 1, 2, 5, 29, 30 and 31. */
  lemma SlotsDistinct(pool: string, iso: string, bind: string, port: int, password: string)
    ensures Slots(Devices(pool, iso, bind, port, password)) == SlotNumbers
    ensures Distinct(SlotNumbers)
  {
  }

  /** The argument list is 23 words: the fixed options, the seven device
      arguments, and the name last; the CD on slot 2 carries the ISO path. */
  lemma ArgsShape(pool: string, iso: string, bind: string, port: int, password: string, name: string)
    ensures var a := Args(pool, iso, bind, port, password, name);
      && |a| == 23 && a[..8] == BaseArgs && a[22] == name
      && a[8..22] == SlotArgs(Devices(pool, iso, bind, port, password))
      && a[13] == "2,ahci-cd," + iso
  {
    var devs := Devices(pool, iso, bind, port, password);
    var a := Args(pool, iso, bind, port, password, name);
    var s := SlotArgs(devs);
    SlotArgsAt(devs);
    assert a == BaseArgs + s + [name];
    assert a[13] == s[2 * 2 + 1] == devs[2].slot + "," + devs[2].spec;
    assert devs[2].slot + "," + devs[2].spec == "2,ahci-cd," + iso;
  }

  /** Read as bhyve reads it, the argument list gives "-s" before every
      device argument, and each device argument names its slot before its
      first comma. */
  lemma ArgsSlots(pool: string, iso: string, bind: string, port: int, password: string, name: string)
    ensures var a := Args(pool, iso, bind, port, password, name);
      && |a| == 23
      && (forall k :: 0 <= k < 7 ==> a[8 + 2 * k] == "-s")
      && (forall k :: 0 <= k < 7 ==> Split(a[9 + 2 * k], ',')[0] == SlotNumbers[k])
  {
    var devs := Devices(pool, iso, bind, port, password);
    var a := Args(pool, iso, bind, port, password, name);
    var s := SlotArgs(devs);
    SlotArgsAt(devs);
    assert a == BaseArgs + s + [name];
    SlotsDistinct(pool, iso, bind, port, password);
    forall k | 0 <= k < 7
      ensures a[8 + 2 * k] == "-s" && Split(a[9 + 2 * k], ',')[0] == SlotNumbers[k]
    {
      assert a[8 + 2 * k] == s[2 * k];
      assert a[9 + 2 * k] == s[2 * k + 1];
      assert devs[k].slot == Slots(devs)[k];
      SlotReadsBack(devs, k);
    }
  }

  class StepBhyve {
    const name: string
    var vmEndCh: Option<RcChannel>
    /** The argument list of the last launch, which the watcher goroutine
        captures to relaunch bhyve with. */
    var launchArgs: seq<string>

    constructor (name: string)
      ensures this.name == name && vmEndCh == None && launchArgs == []
    {
      this.name := name;
      vmEndCh := None;
      launchArgs := [];
    }

    /** stepBhyve.Run: launches bhyve with `Args` built from the pool, the VNC
        bind address and the state's ISO path, VNC port and password (a missing
        or mistyped one is a panic in the source). A launch failure halts
        without writing anything to the state; a launch records its argument
        list for the watcher, sets a fresh, empty end channel and continues. */
    method Run(c: Configuration.Config, sh: Shell, state: StateBag) returns (action: StepAction)
      requires HasStr(state.entries, IsoPathKey) && HasNum(state.entries, VncPortKey) && HasStr(state.entries, VncPasswordKey)
      modifies this, sh
      ensures var cmd := Exec(BhyvePath, old(Args(c.diskZPool, state.entries[IsoPathKey].s, c.vncBindAddress,
                                                  state.entries[VncPortKey].n, state.entries[VncPasswordKey].s, name)));
              var r := sh.world(old(sh.trace), cmd);
              && sh.trace == old(sh.trace) + [Started(cmd, r)]
              && (action == Continue <==> r.Started())
              && (r.Started() ==> vmEndCh.Some? && fresh(vmEndCh.value) && vmEndCh.value.sent == []
                                  && launchArgs == cmd.args)
              && (!r.Started() ==> vmEndCh == old(vmEndCh) && launchArgs == old(launchArgs))
    {
      var args := Args(c.diskZPool, state.entries[IsoPathKey].s, c.vncBindAddress,
                       state.entries[VncPortKey].n, state.entries[VncPasswordKey].s, name);
      var r := sh.Start(Exec(BhyvePath, args));
      if !r.Started() {
        return Halt;
      }
      var endCh := new RcChannel();
      vmEndCh := Some(endCh);
      launchArgs := args;
      action := Continue;
    }

    /** The watcher, once the first bhyve process has been waited for with
        outcome `w`: after a clean exit (a guest reboot) it relaunches bhyve
        with the very argument list Run launched it with, CD included (see
        ArgsShape), whether or not that launch succeeds; it then sends exactly one code (0 after a clean exit, the exit
        code of an ExitError, 0 for any other error) and clears the end
        channel. */
    method Watch(endCh: RcChannel, w: WaitResult, sh: Shell)
      modifies this, endCh, sh
      ensures var cmd := Exec(BhyvePath, old(launchArgs));
              w.Clean? ==> sh.trace == old(sh.trace) + [Started(cmd, sh.world(old(sh.trace), cmd))]
      ensures !w.Clean? ==> sh.trace == old(sh.trace)
      ensures endCh.sent == old(endCh.sent) + [ExitRc(w)]
      ensures vmEndCh == None && launchArgs == old(launchArgs)
    {
      if w.Clean? {
        var _ := sh.Start(Exec(BhyvePath, launchArgs));
      }
      endCh.Send(ExitRc(w));
      vmEndCh := None;
    }

    /** stepBhyve.Cleanup: `bhyvectl --vm=<name> --destroy`; a failure is only
        logged. */
    method Cleanup(sh: Shell)
      modifies sh
      ensures var cmd := DestroyCommand(name);
              var r := sh.world(old(sh.trace), cmd);
              sh.trace == old(sh.trace) + [Ran(cmd, r)] + (if r.Ok() then [] else [Logged("Error stopping VM: " + RunErrorText(r))])
    {
      var r := sh.Run(DestroyCommand(name));
      if !r.Ok() {
        sh.Log("Error stopping VM: " + RunErrorText(r));
      }
    }
  }

  function DestroyCommand(name: string): Command {
    Exec(BhyvectlPath, ["--vm=" + name, "--destroy"])
  }
}
