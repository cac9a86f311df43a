/** The builder configuration after decoding: in-place defaulting of the
    fields the template left empty, and the validation errors collected on the
    way. Decoding itself and the SDK's own sub-configurations (ISO, HTTP,
    shutdown, CD, VNC, communicator) are outside the model; their warnings and
    errors come in as `SdkResults`. */
module Configuration {
  import opened Wrappers
  import opened Cpu
  import opened Comm

  /** What the SDK's sub-configuration checks returned. */
  datatype SdkResults = SdkResults(
    isoWarnings: seq<string>,
    isoErrs: seq<string>,
    httpErrs: seq<string>,
    shutdownErrs: seq<string>,
    commErrs: seq<string>,
    cdErrs: seq<string>,
    vncErrs: seq<string>)

  const DefaultZPool := "zones"
  const DefaultMemorySize := 512
  const MinMemorySize := 10
  const DefaultVncBindAddress := "127.0.0.1"
  const DefaultVncPortMin := 5900
  const DefaultVncPortMax := 6000
  const LowestVncPort := 5900
  const HighestTcpPort := 65535
  const DefaultVnicName := "packer0"

  const DiskSizeError := "disk_size must be specified"
  const VncPortMinError := "vnc_port_min cannot be below 5900"
  const VncPortMaxError := "vmc_port_min and vnc_port_max must both be below 65535 to be valid TCP ports"
  const VncPortOrderError := "vnc_port_min must be less than vnc_port_max"

  function OutputDirExistsError(dir: string): string {
    "Output directory '" + dir + "' already exists. It must not exist."
  }

  /** v, or d when v is empty. */
  function OrDefault(v: string, d: string): (r: string)
    ensures r != "" <== v != "" || d != ""
    ensures v != "" ==> r == v
  {
    if v == "" then d else v
  }

  /** The VNC port checks, in the order Prepare appends their errors. The
      range is accepted exactly when 5900 <= min <= max <= 65535. */
  function VncPortErrors(min: int, max: int): (r: seq<string>)
    ensures r == [] <==> LowestVncPort <= min <= max <= HighestTcpPort
    ensures VncPortMinError in r <==> min < LowestVncPort
    ensures VncPortMaxError in r <==> min > HighestTcpPort || max > HighestTcpPort
    ensures VncPortOrderError in r <==> min > max
  {
    (if min < LowestVncPort then [VncPortMinError] else [])
      + (if min > HighestTcpPort || max > HighestTcpPort then [VncPortMaxError] else [])
      + (if min > max then [VncPortOrderError] else [])
  }

  class Config {
    // common.PackerConfig
    var buildName: string
    var force: bool
    var packerDebug: bool
    // embedded CPUConfig and CommConfig
    var cpu: CPUConfig
    const comm: CommConfig

    var diskName: string
    var diskSize: string
    var diskUseZvol: bool
    var diskZPool: string
    var hostNIC: string
    var memorySize: int
    var outputDir: string
    var vmName: string
    var vncBindAddress: string
    var vncPortMax: int
    var vncPortMin: int
    var vncUsePassword: bool
    var vnicCreate: bool
    var vnicName: string
    var vnicLink: string

    /** A configuration as decoding leaves it. */
    constructor (comm: CommConfig)
      ensures this.comm == comm
    {
      this.comm := comm;
    }

    /** The errors Prepare reports, given the fields as Prepare leaves them:
        the SDK checks, the communicator port checks, the disk size check, the
        output directory check, the CD and VNC SDK checks, and the VNC port
        checks, in that order. */
    function ErrorsFor(sdk: SdkResults, existing: set<string>): seq<string>
      reads this, comm
    {
      sdk.isoErrs + sdk.httpErrs + sdk.shutdownErrs
        + (sdk.commErrs + HostPortErrors(comm.hostPortMin, comm.hostPortMax))
        + (if diskSize == "" then [DiskSizeError] else [])
        + (if !force && outputDir in existing then [OutputDirExistsError(outputDir)] else [])
        + sdk.cdErrs + sdk.vncErrs
        + VncPortErrors(vncPortMin, vncPortMax)
    }

    /** The disk and memory defaults of Config.Prepare. */
    method FillDiskDefaults()
      modifies this`diskName, this`diskZPool, this`memorySize
      ensures diskName == OrDefault(old(diskName), "disk-" + buildName)
      ensures diskZPool == OrDefault(old(diskZPool), DefaultZPool)
      ensures memorySize == (if old(memorySize) < MinMemorySize then DefaultMemorySize else old(memorySize))
    {
      diskName := OrDefault(diskName, "disk-" + buildName);
      diskZPool := OrDefault(diskZPool, DefaultZPool);
      if memorySize < MinMemorySize {
        memorySize := DefaultMemorySize;
      }
    }

    /** The output directory and VM name defaults of Config.Prepare. */
    method FillOutputDefaults()
      modifies this`outputDir, this`vmName
      ensures outputDir == OrDefault(old(outputDir), "output-" + buildName)
      ensures vmName == OrDefault(old(vmName), "packer-" + buildName)
    {
      outputDir := OrDefault(outputDir, "output-" + buildName);
      vmName := OrDefault(vmName, "packer-" + buildName);
    }

    /** The VNC defaults of Config.Prepare. */
    method FillVncDefaults()
      modifies this`vncBindAddress, this`vncPortMin, this`vncPortMax
      ensures vncBindAddress == OrDefault(old(vncBindAddress), DefaultVncBindAddress)
      ensures vncPortMin == (if old(vncPortMin) == 0 then DefaultVncPortMin else old(vncPortMin))
      ensures vncPortMax == (if old(vncPortMax) == 0 then DefaultVncPortMax else old(vncPortMax))
    {
      vncBindAddress := OrDefault(vncBindAddress, DefaultVncBindAddress);
      if vncPortMin == 0 {
        vncPortMin := DefaultVncPortMin;
      }
      if vncPortMax == 0 {
        vncPortMax := DefaultVncPortMax;
      }
    }

    /** The VNIC defaults of Config.Prepare: the link falls back to host_nic. */
    method FillVnicDefaults()
      modifies this`vnicLink, this`vnicName
      ensures vnicLink == OrDefault(old(vnicLink), hostNIC)
      ensures vnicName == OrDefault(old(vnicName), DefaultVnicName)
    {
      vnicLink := OrDefault(vnicLink, hostNIC);
      vnicName := OrDefault(vnicName, DefaultVnicName);
    }

    /** Every defaulting step of Config.Prepare: an empty field takes its
        default and a non-empty field keeps its value. */
    method FillDefaults()
      modifies this`diskName, this`diskZPool, this`memorySize, this`outputDir, this`vmName
      modifies this`vncBindAddress, this`vncPortMin, this`vncPortMax, this`vnicLink, this`vnicName
      ensures diskName == OrDefault(old(diskName), "disk-" + buildName)
      ensures diskZPool == OrDefault(old(diskZPool), DefaultZPool)
      ensures memorySize == (if old(memorySize) < MinMemorySize then DefaultMemorySize else old(memorySize))
      ensures outputDir == OrDefault(old(outputDir), "output-" + buildName)
      ensures vmName == OrDefault(old(vmName), "packer-" + buildName)
      ensures vncBindAddress == OrDefault(old(vncBindAddress), DefaultVncBindAddress)
      ensures vncPortMin == (if old(vncPortMin) == 0 then DefaultVncPortMin else old(vncPortMin))
      ensures vncPortMax == (if old(vncPortMax) == 0 then DefaultVncPortMax else old(vncPortMax))
      ensures vnicLink == OrDefault(old(vnicLink), hostNIC)
      ensures vnicName == OrDefault(old(vnicName), DefaultVnicName)
    {
      FillDiskDefaults();
      FillOutputDefaults();
      FillVncDefaults();
      FillVnicDefaults();
    }

    /** How Prepare leaves the fields once decoding succeeded: every empty (or
        zero) field has taken its default, every non-empty field has kept its
        value, the communicator's zero ports are defaulted, and every other
        field is as it was. */
    twostate predicate Defaulted()
      reads this, comm
    {
      && diskName == OrDefault(old(diskName), "disk-" + buildName)
      && diskZPool == OrDefault(old(diskZPool), DefaultZPool)
      && memorySize == (if old(memorySize) < MinMemorySize then DefaultMemorySize else old(memorySize))
      && outputDir == OrDefault(old(outputDir), "output-" + buildName)
      && vmName == OrDefault(old(vmName), "packer-" + buildName)
      && vncBindAddress == OrDefault(old(vncBindAddress), DefaultVncBindAddress)
      && vncPortMin == (if old(vncPortMin) == 0 then DefaultVncPortMin else old(vncPortMin))
      && vncPortMax == (if old(vncPortMax) == 0 then DefaultVncPortMax else old(vncPortMax))
      && vnicLink == OrDefault(old(vnicLink), old(hostNIC))
      && vnicName == OrDefault(old(vnicName), DefaultVnicName)
      && comm.hostPortMin == (if old(comm.hostPortMin) == 0 then DefaultHostPortMin else old(comm.hostPortMin))
      && comm.hostPortMax == (if old(comm.hostPortMax) == 0 then DefaultHostPortMax else old(comm.hostPortMax))
      && buildName == old(buildName) && force == old(force) && packerDebug == old(packerDebug) && cpu == old(cpu)
      && diskSize == old(diskSize) && diskUseZvol == old(diskUseZvol) && hostNIC == old(hostNIC)
      && vncUsePassword == old(vncUsePassword) && vnicCreate == old(vnicCreate)
    }

    /** Config.Prepare once decoding succeeded: every empty field takes its
        default, every non-empty field keeps its value, and the collected errors
        are returned; an empty list stands for Go's nil error. `existing` is the
        set of paths on which os.Stat succeeds. Each check reads only fields
        that are already final when the source makes it, so the model makes the
        checks after all defaults are in place. */
    method PrepareDecoded(sdk: SdkResults, existing: set<string>)
      returns (warnings: seq<string>, errs: seq<string>)
      modifies this, comm
      ensures Defaulted()
      ensures warnings == sdk.isoWarnings && errs == ErrorsFor(sdk, existing)
    {
      var ccWarn := SetDefaults(sdk.commErrs);
      warnings := sdk.isoWarnings + ccWarn;
      errs := ErrorsFor(sdk, existing);
    }

    /** The defaulting half of PrepareDecoded: the communicator's Prepare
        (which warns about nothing) and then this configuration's defaults. */
    method SetDefaults(commErrs: seq<string>) returns (ccWarn: seq<string>)
      modifies this, comm
      ensures Defaulted()
      ensures ccWarn == []
    {
      var ccErr;
      ccWarn, ccErr := comm.Prepare(commErrs);
      FillDefaults();
    }

    /** Config.Prepare: a decoding error is returned at once, alone, and
        nothing is defaulted; otherwise the fields are defaulted and checked as
        in PrepareDecoded. */
    method Prepare(decodeErr: Option<string>, sdk: SdkResults, existing: set<string>)
      returns (warnings: seq<string>, errs: seq<string>)
      modifies this, comm
      ensures decodeErr.Some? ==> warnings == [] && errs == [decodeErr.value]
      ensures decodeErr.Some? ==> unchanged(this) && unchanged(comm)
      ensures decodeErr.None? ==> Defaulted()
      ensures decodeErr.None? ==> warnings == sdk.isoWarnings && errs == ErrorsFor(sdk, existing)
    {
      if decodeErr.Some? {
        return [], [decodeErr.value];
      }
      warnings, errs := PrepareDecoded(sdk, existing);
    }
  }

  /** Prepare reports no error exactly when every SDK check passed, the host
      port range is a non-negative ordered pair, a disk size is given, the
      output directory is absent (or force is set), and the VNC range lies in
      5900..65535 in order. */
  lemma ErrorsForEmpty(c: Config, sdk: SdkResults, existing: set<string>)
    ensures c.ErrorsFor(sdk, existing) == [] <==>
      && sdk.isoErrs == [] && sdk.httpErrs == [] && sdk.shutdownErrs == []
      && sdk.commErrs == [] && sdk.cdErrs == [] && sdk.vncErrs == []
      && 0 <= c.comm.hostPortMin <= c.comm.hostPortMax
      && c.diskSize != ""
      && (c.force || c.outputDir !in existing)
      && LowestVncPort <= c.vncPortMin <= c.vncPortMax <= HighestTcpPort
  {
  }
}
