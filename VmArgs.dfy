/** The pieces bhyve's command line is built from: fixed options, then one
    "-s <slot>,<device>" pair per PCI device, then the VM name. */
module VmArgs {
  import opened Text

  /** A PCI device: its slot ("4", or "30:1" for a function of slot 30) and
      the emulation with its options. */
  datatype Device = Device(slot: string, spec: string)

  /** -D (destroy on power-off), -H (yield on halt), one vCPU, the UEFI boot
      ROM and 1024 MB of memory. */
  const BaseArgs := ["-D", "-H", "-c", "1", "-l", "bootrom,/usr/share/bhyve/uefi-rom.bin", "-m", "1024"]

  /** The two arguments that attach one device. */
  function SlotPair(d: Device): seq<string> {
    ["-s", d.slot + "," + d.spec]
  }

  /** "-s", "<slot>,<spec>" for every device, in order. */
  function SlotArgs(devs: seq<Device>): (r: seq<string>)
    ensures |r| == 2 * |devs|
  {
    if devs == [] then [] else SlotPair(devs[0]) + SlotArgs(devs[1..])
  }

  /** Argument 2k is "-s" and argument 2k + 1 is device k's slot and
      emulation, joined by a comma. */
  lemma {:induction false} SlotArgsAt(devs: seq<Device>)
    ensures var r := SlotArgs(devs);
            forall k :: 0 <= k < |devs| ==> r[2 * k] == "-s" && r[2 * k + 1] == devs[k].slot + "," + devs[k].spec
  {
    if devs != [] {
      var rest := SlotArgs(devs[1..]);
      SlotArgsAt(devs[1..]);
      var r := SlotArgs(devs);
      assert r == SlotPair(devs[0]) + rest;
      forall k | 1 <= k < |devs|
        ensures r[2 * k] == "-s" && r[2 * k + 1] == devs[k].slot + "," + devs[k].spec
      {
        assert devs[1..][k - 1] == devs[k];
        assert r[2 * k] == rest[2 * (k - 1)];
        assert r[2 * k + 1] == rest[2 * (k - 1) + 1];
      }
    }
  }

  /** The framebuffer options: VNC on bind:port with a password. */
  function FbufSpec(bind: string, port: int, password: string): string {
    "fbuf,vga=off,rfb=" + bind + ":" + Itoa(port) + ",password=" + password
  }

  /** The raw zvol device of the boot disk. */
  function ZvolDevice(pool: string): string {
    "/dev/zvol/rdsk/" + pool + "/packer0"
  }

  function Slots(devs: seq<Device>): (r: seq<string>)
    ensures |r| == |devs|
  {
    seq(|devs|, k requires 0 <= k < |devs| => devs[k].slot)
  }

  predicate Distinct(s: seq<string>) {
    forall i, j :: 0 <= i < j < |s| ==> s[i] != s[j]
  }

  /** Reading an argument list back: the text before the first ',' of each
      device argument is the slot it was built from. */
  lemma SlotReadsBack(devs: seq<Device>, k: nat)
    requires k < |devs| && ',' !in devs[k].slot
    ensures Split(SlotArgs(devs)[2 * k + 1], ',')[0] == devs[k].slot
  {
    var d := devs[k];
    SlotArgsAt(devs);
    assert SlotArgs(devs)[2 * k + 1] == d.slot + [','] + d.spec;
    SplitAfterPiece(d.slot, ',', d.spec);
  }
}
